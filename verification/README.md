# JumpBox, verified

JumpBox is a local proxy daemon with a browser plugin. The daemon keeps client requests in one
queue and the plugin's pulls in another; eight workers pair them. A pull is answered with a
client's request, the plugin sends that request to a stego server, and pushes the server's answer
back under the sequence number it was given. On the same queues the daemon runs the ACS dance, two
requests of its own with a wait in between, from a NET that comes out of an onion peeled layer by
layer. This project models those parts in Dafny and proves what they keep over whole runs.

`dafny verify dfyconfig.toml` checks everything.

## How it is modelled

- **The exchange** (`Exchange`): a transition system. Every operation on a locked list is one
  atomic action, and what a worker, a push or a close holds between two of them is part of the
  state. `ExchangeSafety`, `ExchangeStranding` and `ExchangeProgress` prove conservation, at most
  one answer, when requests are stranded, complete pairing and order. `Daemon` is the code of
  server/djb.c on lists changed in place, each method tied to the actions it performs.
  `ExchangeAstray` has the answer that goes to the wrong client.
- **Sequence numbers** (`SeqNo`, `Decimal`): printing with a minimum width and scanning with a
  maximum width.
- **The dance** (`Dance`): the exchange, the HTTP threads, the two mutexes, the message queue and
  the reference counts, one action for every section between two lock operations, so that a status
  message can come after the request it is about was already answered. `DanceSafety`,
  `DancePhases`, `DanceAnswers`, `DanceDone`, `DanceOnce`, `DanceExact`, `DanceRestart`,
  `DanceStatus` and `DanceRefs` prove its properties over all runs; `AcsState` is the code of
  server/acs.c, and `AcsOutcomes` lists what a poll, a callback and a set call come to.
- **The relay** (`Headers`, `Relay`): the plugin's header handlers on header objects, and the three
  legs from the client's request to its answer. The two translations and the daemon's answers are
  methods that fill objects step by step. `Transparency` proves what arrives.
- **A circuit** (`Circuits`): the callbacks of one tab; everything in flight is counted.
- **Peeling** (`Rendezvous`): requests are single steps, the proof-of-work thread's accesses to
  shared variables are three. `RendezvousSafety`, `RendezvousPeels`, `RendezvousDescent` and
  `RendezvousExact` prove its properties, `RendezvousState` is the code of server/rendezvous.c.
- **Preferences** (`Preferences`): values overwritten in place, and the argument vector whose size
  is computed in 32 bits.

What foreign code decides is part of an action or a parameter: which thread runs, whether a
connection is valid, whether memory is left, whether a thread is started, the time, random
numbers, environment variables, parsed JSON values and ISO 8601 intervals, and whether an onion
decrypts, a puzzle is solved, a signature verifies or a body can be decoded.

What is assumed of the parts that are not shown: `list_getnext` takes the head and every list
operation is atomic; connection ids are unique, and so are the pairs of id and request number of
queued requests; `hcl->id` and `hcl->reqid` do not change while a request is queued; header fields
are long enough for the values put into them; a header list given to the plugin holds distinct
objects; an XMLHttpRequest reports its last state once; the headers a browser adds to a request of
the plugin, cookies among them, are none of those that the relay sets (DJB-* and Content-Type).

## Where the code differs from what is said about it

- The plugin asks for `/next/` (background.js:83), the daemon serves `/pull/` and `/push/`
  (djb.c:952-956). The model has the roles, not the paths.
- A Host header is compared with the daemon's whole URL, scheme included (background.js:122 and
  247), which no Host header equals: `Headers.HostNeverMatches`. What the loop would do with a match
  is modelled all the same.
- circuit.js:305-308 reports a request that could not be made as 555. It does so when the response
  has a body object; with a null body reading its size (circuit.js:331) throws first, the circuit
  stops, and its counters then differ from those of a circuit stopped by the daemon:
  `Transparency.ResponseTransparent`, `Circuits.CircuitInvariant`.
- A server that gives no reason (as over HTTP/2) makes a push that the daemon refuses:
  `Transparency.ResponseTransparent`, `Transparency.AnswerFindsItsClient`.
- In front of the branch for an invalid puller stands `fassert(false)` (djb.c:1217). The model takes
  the branch: the request is lost.
- An image or a reset while the proof-of-work is open can mix up onions. After a run that was careful
  so far it does in exactly these cases (`RendezvousExact.NextStepMixesExactly`): a reset while the
  thread has not begun, or computes on the current onion; an image that is no proof-of-work while the
  thread has not begun; and an image whose first proof-of-work layer, if it has one, is another than
  that of the result being computed or waiting.
- An image leaks the old onion, if there is one, and a worker leaks a result that was not taken
  (`RendezvousSafety.LeaksExactly`). A second captcha layer shows the first one's picture.
- Only the first Set-Cookie of a server is renamed (background.js:288-292); the others can reach the
  browser's own store, and come back with later requests beside the client's cookie:
  `Transparency.RequestTransparent` says what the server then gets.
- `prf_get_argv` documents that a positive number is success; the number is negative from 2^31 slots
  on, and the size wraps around at 2^32.
- The dance is meant to run once per NET. It starts again on the old one in three cases: an answer
  overtakes the message that its request was sent; the daemon is shutting down when a request is to
  be made, where `acs_request` reports success after the dance was ended (acs.c:327-329) and
  "Request sent" is put as the status; and there is no memory for the request's record
  (djb.c:1016-1023), where the dance ends without a message. `DanceExact.NextStepExactly` shows that
  these are all.
- A request number or client id from 16^9 on is printed with more digits than are read: an answer
  can then complete another client's request (`ExchangeAstray.AnswerGoesAstray`).
- With a window of zero `acs_wait` divides by zero; such a thread takes no further step in the model.

## Model

| member | source | states |
|---|---|---|
| `ExchangeSafety.ExactlyOnePlace` | server/djb.c:1006-1365 | in every run, whatever workers, pushes and closes do in between each other, every accepted request is in exactly one place: waiting, one worker's hand, outstanding, one hand of a push or close, answered, or lost; and no other request is anywhere |
| `ExchangeSafety.StepPlaces` | server/djb.c:1006-1365 | one step changes the number of places of a request only by accepting it |
| `ExchangeSafety.OnlyTwoStepsLose` | server/djb.c:1216-1221 | a request leaves circulation unanswered in two steps only: forwarding to an invalid puller, and a worker that ends without a puller (lines 1338-1343); only an accept brings one in |
| `ExchangeSafety.AtMostOneAnswer` | server/djb.c:388-515 | in every run no request is answered twice, and every answer's sequence number decodes to the request it completed |
| `ExchangeSafety.AnsweredNeverReturns` | server/djb.c:388-515 | an answered request is never again waiting, outstanding or held, whatever follows |
| `ExchangeSafety.PushRemovesOneOrNothing` | server/djb.c:307-338 | a push with a missing code or text, an unreadable number, or a number nobody waits under changes nothing; any other takes exactly the one record with that key |
| `ExchangeSafety.RefusalCodes` | server/djb.c:307-338 | a push is refused with 504 if and only if its code or text is missing or its number cannot be read, and with 404 if and only if none of these and nobody waits under the number |
| `ExchangeSafety.OutstandingDistinct` | server/djb.c:276-305 | no two outstanding records have the same key, so that the search that stops at the first match finds the only one |
| `ExchangeSafety.EchoFindsItsRequest` | server/djb.c:307-338 | a push that echoes the number printed for an outstanding request takes that request if and only if both its numbers are below 16^9 |
| `ExchangeAstray.EchoFindsAnother` | server/djb.c:276-338 | in any state: the push that echoes the number printed for (16^8, 16^9) takes the outstanding request (16^8, 16^8) |
| `ExchangeAstray.AnswerGoesAstray` | server/djb.c:388-515 | a run in which the answer of the one request completes the other, and the first stays outstanding |
| `ExchangeStranding.StepStrandsExactlyWhenUnsafe` | server/djb.c:1157-1197 | one step leaves a request with a closed puller if and only if it publishes to, or puts a record back for, a closed puller, or closes one that two outstanding records name |
| `ExchangeStranding.CloseIsSafeExactlyFor` | server/djb.c:1182-1197 | closing a puller strands nothing if and only if at most one outstanding record names it |
| `ExchangeStranding.LiveExactlyWhenOrderly` | server/djb.c:1182-1197 | from a state in which nobody is about to hand a request to a closed puller, a step leads to one if and only if it is no close or an orderly one: the puller is neither queued nor being served, no callback holds its record, and at most one outstanding record names it |
| `ExchangeStranding.AlwaysLiveExactlyWhenOrderly` | server/djb.c:1182-1197 | over a whole run that stays so throughout if and only if every close is orderly |
| `ExchangeStranding.NoStrandedRequest` | server/djb.c:1157-1197 | in every run whose closes are orderly, no outstanding request names a closed puller |
| `ExchangeStranding.TwoOnOnePullerStrands` | server/djb.c:1162-1175 | for any two requests a run with both on one puller: the close reschedules the first and leaves the second stranded |
| `ExchangeStranding.CloseBeforeReleaseStrands` | server/djb.c:1250-1262 | a run in which a puller closes while its pull is queued and is handed a request all the same |
| `ExchangeStranding.CloseDuringCallbackStrands` | server/djb.c:411-422 | a run in which a close falls between a push's removal of an internal request and its put-back, and misses it |
| `ExchangeProgress.CompletePairing` | server/djb.c:1316-1360 | with no arrivals, closes, shutdown or broken puller, and a worker that has not exited, a run of worker steps is no longer than a measure of its start, and one that cannot go on has forwarded exactly the lesser of requests wanting a puller and pulls, plus the forwards in progress |
| `ExchangeProgress.QuietMeansPaired` | server/djb.c:1316-1360 | with a worker that has not exited, a state with a request wanting a puller and a pull, or with a forward in progress, has an enabled worker step |
| `ExchangeProgress.BoundedOvertaking` | server/djb.c:1316-1360 | requests leave the queue in the order they entered it; when one is forwarded, at most one less than the number of workers, so at most seven, of those dequeued before it are neither forwarded nor lost |
| `ExchangeProgress.StepKeepsFifo` | server/djb.c:1182-1197 | what was enqueued is what was dequeued followed by what waits; a rescheduled request counts as enqueued again |
| `ExchangeProgress.PullsInOrder` | server/djb.c:1335-1343 | over any run the pulls that waited and those that came are those that workers took, in order and each once, followed by those that wait |
| `Daemon.Djb.ProxyAdd` | server/djb.c:1006-1037 | does the accept step, which puts the request at the end of the queue with no puller, or nothing without memory |
| `Daemon.Djb.PullPost` | server/djb.c:342-366 | does the pull step, which puts the puller at the end of its queue, or nothing without memory |
| `Daemon.Djb.HandleProxy` | server/djb.c:1048-1098 | the first proxied request fixes the override of the host for good: the forced hostname, else the preference; the override replaces the request's host |
| `Daemon.Djb.FindReq` | server/djb.c:275-305 | removes the first record with the key from the list in place, or leaves the list |
| `Daemon.Djb.FindReqDh` | server/djb.c:309-338 | the three checks in order, with their error codes, then the removal |
| `Daemon.Djb.FindPhcl` | server/djb.c:1157-1178 | removes the first record paired with the puller, or leaves the list |
| `Daemon.Djb.TakeForPush` | server/djb.c:397-409 | the first locked operation of a push is the step of the exchange |
| `Daemon.Djb.FinishPush` | server/djb.c:411-514 | the rest of a push: put-back, completion by the callback, closed client, answer; and the return value of each |
| `Daemon.Djb.Push` | server/djb.c:388-515 | a push that is alone comes to `PushAlone`, whose two outcomes the next two rows state outright |
| `Daemon.PushAloneRefused` | server/djb.c:307-338 | a push with a missing code or text, an unreadable number or a number nobody waits under changes nothing at all |
| `Daemon.PushAloneAnswers` | server/djb.c:388-515 | any other takes the first record with its number off the list; one of the daemon's own whose callback is not done goes to the end of the list, and every other adds one answer, delivered unless it is a client's and the client is gone; all else is as before |
| `Daemon.Djb.TakeForClose` | server/djb.c:1188-1190 | the first locked operation of a close is the step of the exchange |
| `Daemon.Djb.Close` | server/djb.c:1182-1197 | a close that is alone comes to `CloseAlone`, whose two outcomes the next two rows state outright |
| `Daemon.CloseAloneReschedules` | server/djb.c:1182-1197 | the first outstanding request forwarded to the puller leaves its list and is the last of the queue; all else, everybody's hands too, is as before |
| `Daemon.CloseAlonePlain` | server/djb.c:1182-1197 | with no such request no list changes |
| `Daemon.Djb.HandleForward` | server/djb.c:1205-1306 | stores the puller in the record and publishes it, or loses it when the puller is invalid |
| `Daemon.Djb.GetNextProxy` | server/djb.c:1321-1333 | takes the head of the queue of requests |
| `Daemon.Djb.GetNextPull` | server/djb.c:1335-1343 | takes the head of the queue of pulls |
| `Daemon.Djb.WorkerRound` | server/djb.c:1316-1360 | one round of the loop: served, left waiting with the request in hand, or given up at shutdown |
| `Daemon.Djb.WorkerThread` | server/djb.c:1310-1365 | a worker alone comes to the state that its rounds lead to, with a shutdown after any number of rounds or none |
| `Daemon.WorkerAlonePairs` | server/djb.c:1310-1365 | a worker alone gets through the least of requests, pulls and rounds until a shutdown; it loses one per broken connection and one more when a shutdown finds it holding a request, and forwards the others |
| `SeqNo.SeqNoRoundTrip` | server/djb.c:1236-1237 | reading back the printed pair gives the pair if and only if both numbers are below 16^9 (sections 7.19.6.1 and 7.19.6.2 of ISO/IEC 9899:1999) |
| `SeqNo.SeqNoInjective` | server/djb.c:1236-1237 | below the bound distinct requests never share a sequence number |
| `SeqNo.SeqNoCollision` | server/djb.c:1236-1237 | above it two requests can: (16^8, 16^9) and (16^9 + 1, 0) |
| `SeqNo.SeqNoAstray` | server/djb.c:327-330 | the number printed for (16^8, 16^9) is read as (16^8, 16^8) |
| `SeqNo.ScanNineDigits` | server/djb.c:327-330 | one conversion reads exactly nine digits, and its value is below 16^9 |
| `SeqNo.PrintedNumber` | server/djb.c:1236-1237 | a printed number has at least nine digits, exactly nine when below 16^9, and stands for the number |
| `SeqNo.ScanSigned` | server/djb.c:327-330 | a sign takes one of the nine places of a conversion, and a negative number wraps around in 64 bits |
| `SeqNo.ScanPrefixed` | server/djb.c:327-330 | a prefix 0x takes two of them |
| `SeqNo.ScanSkipsSpace` | server/djb.c:327-330 | white space in front of a number is skipped |
| `SeqNo.ScanRefuses` | server/djb.c:327-330 | text without a digit behind white space and a sign is no number |
| `Decimal.AtoiOfPrint` | server/djb.c:466 | atoi of a printed status is the status |
| `Decimal.AtoiStops` | server/acs.c:502-512 | reading a status stops behind its digits, so that "200 OK" is a 200 |
| `Decimal.AtoiSigned` | server/acs.c:502-512 | a sign is heeded |
| `DanceSafety.ExactlyOneToken` | server/acs.c:320-690 | in every run, while nothing was lost or aborted, the dancing flag is set exactly when one token exists (starting poll, one request in the exchange, or one callback); otherwise it stays set without a token; at most one of the daemon's own requests is in the exchange |
| `DanceSafety.TokenLostOnlyBy` | server/acs.c:486-489 | the token is lost by an aborted moonwalk or by the exchange losing one of the daemon's own requests, and by nothing else |
| `DancePhases.DanceInOrder` | server/acs.c:145-690 | in every run the events form dances that go through their phases in order; the flag is set exactly between a start and its end, and meanwhile the NET is the one the dance started with |
| `DancePhases.RedirectComesAfterTheWait` | server/acs.c:450-537 | a redirect request comes right after a wait that the NET's numbers can produce, and that lies in [wait, wait + window) when their sum does not exceed 2^64, after a 200 to this dance's initial request; both gateways are those of the NET the dance started with |
| `DancePhases.CompletionComesAfterTheBridges` | server/acs.c:360-446 | completion comes right after a 200 to the redirect request whose body was decoded and parsed |
| `DanceAnswers.CallbackSees` | server/djb.c:397-415 | a push taken for one of the daemon's own requests gives that request's callback, and no other, its code as atoi reads it and its text |
| `DanceAnswers.FailedAnswerLeaves` | server/acs.c:502-521 | a push with any printed code but 200 logs nothing, leaves an error that tells this code and text, and makes the callback sit down; lines 372-379 do the same for the redirect |
| `DanceAnswers.GoodAnswerCounts` | server/acs.c:502-524 | a push with the printed code 200 is logged as a 200 to the phase of the request it names, for the redirect if and only if its body is decoded |
| `DanceAnswers.Each200WasPushed` | server/acs.c:360-537 | in every run, for each 200 in the log a push with the code 200 for the daemon's own request of that phase was taken, when just what stands before it had been logged |
| `DanceAnswers.RedirectNeedsA200` | server/acs.c:450-537 | in every run a redirect request comes after a push of a 200 that was taken for the initial request of the same dance |
| `DanceAnswers.CompletionNeedsA200` | server/acs.c:360-446 | and a completion after one for its redirect request |
| `DanceDone.EachDoneHasItsCompletion` | server/acs.c:360-446 | in every run DONE was reported, and told from the queue, at most as often as dances were completed, with memory exactly as often; each completion came after the bridges |
| `DanceDone.CurrentDoneIsFresh` | server/acs.c:665-690 | while DONE is the current status the last dance was completed, after the bridges, and none was started since |
| `DanceDone.DoneMeansBridges` | server/acs.c:404-435 | whoever is told DONE is told so after such a completion |
| `DancePhases.WalkStaysInWindow` | server/acs.c:470-484 | the waiting time w satisfies wait <= w < wait + window for every random number if and only if wait + window does not exceed 2^64 |
| `DanceOnce.NoSecondDanceWithoutNewNet` | server/acs.c:635-656 | in every timely run a NET was installed between any two starts of the dance |
| `DanceExact.NextStepExactly` | server/acs.c:320-356 | after every timely run the next step makes a second dance on the same NET possible, by timely steps, if and only if it is untimely: an answer is taken before its request was reported as sent, a request is made during shutdown, or its record cannot be allocated while the status is good |
| `DanceExact.TimelyExactly` | server/acs.c:320-356 | the same from every state in order in which no finished dance can start again |
| `DanceExact.TakeWhileSentRestarts` | server/acs.c:554-558 | from every such state, taking an answer while a thread has yet to report its request leads to a second start |
| `DanceExact.AskWhenStoppedRestarts` | server/acs.c:327-329 | from every state in order, making a request during shutdown does |
| `DanceExact.UnrecordedAskRestarts` | server/acs.c:554-556 | from every state in order, a request without memory for its record does while the status is good |
| `DanceRestart.OvertakingAnswerRestarts` | server/acs.c:461-465 | a run in which an answer overtakes the message about its own request, and the dance starts twice on one NET |
| `DanceRestart.ShutdownRestarts` | server/acs.c:327-329 | a run in which the daemon stops before the request is made: it is reported as sent with nobody dancing, and the dance starts again |
| `DanceRestart.LostRecordRestarts` | server/acs.c:554-556 | a run in which there is no memory for the request's record: the dance ends without a message and starts again |
| `DanceStatus.StatusIsAStutteringQueue` | server/acs.c:48-94 | for any number of pollers the queued replies are a prefix of the messages appended, in order and once each; with memory, a reply given with the queue empty repeats the message appended last |
| `DanceRefs.EachNetReleasedOnce` | server/acs.c:145-192 | over any mix of accepted, rejected, malformed and empty sets every value is released at most once, exactly when nobody refers to it; with no set call in progress the current NET has exactly one reference and every other value was released |
| `AcsState.StepIsLocal` | server/acs.c:320-690 | a step of the whole system is the step of its thread alone |
| `AcsState.SetCallIsNetSet` | server/acs.c:145-192 | the steps of a set call in the whole system come to what the code does in one go |
| `AcsState.Acs.AcsStatus` | server/acs.c:48-94 | sets the current message and queues it; a text that is too long or lack of memory makes it an error |
| `AcsState.Acs.KeepRunning` | server/acs.c:107-116 | reports the slip and sits down when the daemon is stopping |
| `AcsState.Acs.NetString` | server/acs.c:196-217 | the gateway from the NET, or an error and the end of the dance |
| `AcsState.Acs.Request` | server/acs.c:320-356 | every outcome of putting a request into the exchange, success when stopping included |
| `AcsState.Acs.AskGateway` | server/acs.c:450-466 | acs_redirect and acs_initial (lines 541-559): what the steps from the gateway on do |
| `AcsState.Acs.AcsWhen` | server/acs.c:563-622 | the outcomes of the validity check; the dance goes on if and only if there is no NET, no "when", or an interval with start <= now < end |
| `Dance.CheckWhen` | server/acs.c:563-622 | the status is good if and only if there is no NET, no "when", or an interval with start <= now < end |
| `Dance.WhenSays` | server/acs.c:563-622 | which text the check gives, for each of them if and only if |
| `AcsState.Acs.ProgressStart` | server/acs.c:626-663 | a poll that finds nobody dancing and a good status starts the dance and goes as far as the steps go |
| `AcsState.Acs.ProgressReply` | server/acs.c:665-690 | pops the queue, waits once, or repeats the current message |
| `AcsState.Acs.AcsWait` | server/acs.c:470-498 | the wait and what follows it, as the steps do it |
| `AcsState.Acs.Moonwalk` | server/acs.c:486-497 | an aborted sleep leaves the dance hanging; otherwise the redirect is asked for |
| `AcsState.Acs.InitialAnswer` | server/acs.c:502-537 | the initial request's callback |
| `AcsState.Acs.RedirectAnswer` | server/acs.c:360-446 | the redirect request's callback, with its request for the body |
| `AcsState.Acs.SetNet` | server/acs.c:145-192 | refused while dancing; else the old NET is released and the new one described, referenced and installed, or dropped when it is no object |
| `AcsState.Acs.Setup` | server/acs.c:244-316 | parse, set, drop the parser's reference: the value is freed at once if and only if it was not taken |
| `AcsState.Acs.Exit` | server/acs.c:737-762 | nobody dances, no NET, no references and no messages are left |
| `AcsOutcomes.PollOutcome` | server/acs.c:626-663 | what a poll comes to: it starts a dance if and only if nobody dances, the status is good and there is a NET, and asks the initial gateway if and only if the NET is valid now; with all its messages and events in order |
| `AcsOutcomes.AskOutcome` | server/acs.c:320-356 | what asking a gateway comes to in each case, from the lookup in the NET to the message about it (lines 450-466 and 541-559) |
| `AcsOutcomes.InitialAnswerOutcome` | server/acs.c:502-537 | what the initial callback comes to up to the wait: which codes end the dance, and what is said and logged |
| `AcsOutcomes.WalkOutcome` | server/acs.c:470-484 | the wait: an error without either number, else (wait + random modulo window) modulo 2^64 seconds |
| `AcsOutcomes.SleepOutcome` | server/acs.c:486-497 | after the sleep the redirect is asked for if the daemon is running; a sleep that is cut short leaves the dance neither over nor going on |
| `AcsOutcomes.RedirectAnswerOutcome` | server/acs.c:360-446 | what the redirect callback comes to in all seven cases, from a failed code to DONE, with its messages and events in order |
| `AcsOutcomes.WriteTells` | server/acs.c:48-94 | a message that is too long is replaced by an error, and without memory none is queued and what is shown is an error |
| `AcsOutcomes.SetOutcome` | server/acs.c:145-192 | what a set call says and leaves in each of its four cases |
| `AcsOutcomes.ResetCallIsNetSet` | server/acs.c:145-192 | a set call without a value does the same in the whole system |
| `AcsOutcomes.PollIsPolled` | server/acs.c:635-656 | the first step of a poll in the whole system is where it starts alone |
| `AcsOutcomes.ReplyMeans` | server/acs.c:665-690 | a poll is told the head of the queue; with an empty queue it waits once and is then told the current message |
| `Headers.Handlers.OnBeforeSendHeaders` | plugin/jumpbox_plugin_chrome/background.js:239-278 | the loop with its in-place splices and the rename in place: with no matching Host header nothing named DJB-Server and no Origin with the extension's value is left, every other header but the cookie that is renamed is there, and the request is recorded if and only if a DJB-Server was there; and in any case the result is the specified list |
| `Headers.Handlers.Sweep` | plugin/jumpbox_plugin_chrome/background.js:242-268 | the reverse loop on header objects leaves, behind the last matching Host header, exactly the objects that are neither named DJB-Server nor an Origin with the extension's value, in order, and finds the first cookie object among them |
| `Headers.Handlers.OnHeadersReceived` | plugin/jumpbox_plugin_chrome/background.js:280-296 | in the response of a recorded request the first Set-Cookie is renamed, every other header is as before and the record is deleted; any other response is left alone |
| `Headers.WireIsClean` | plugin/jumpbox_plugin_chrome/background.js:239-278 | with no matching Host header no DJB-Server and no Origin with the extension's value is left, every other header is there but for the DJB-Cookie that became a Cookie, and no DJB-Cookie is left if and only if there was at most one; the request is recorded if and only if a DJB-Server was there |
| `Headers.HostStopsTheLoop` | plugin/jumpbox_plugin_chrome/background.js:242-268 | with a matching Host header the headers up to the last such are untouched, no cookie is renamed, and the marks are gone and recorded behind it only |
| `Headers.AwaitedMeans` | plugin/jumpbox_plugin_chrome/background.js:237-286 | after any history of calls a response is renamed if and only if its request was recorded and no response for it came since |
| `Headers.HostNeverMatches` | plugin/jumpbox_plugin_chrome/background.js:247-250 | the comparison is with a whole URL, scheme included, so that no Host header ever matches |
| `Transparency.RequestTransparent` | plugin/jumpbox_plugin_chrome/circuit.js:196-268 | for GET and POST the stego server gets the client's method, address, content type (text/html if it had none) and body; no DJB-Server, no DJB-Cookie and no Origin with the extension's value, and every other header of the browser; the client's cookie is among the cookies it gets, and the only one if and only if the browser adds none; for any other method, and only then, the plugin throws |
| `Transparency.ResponseTransparent` | plugin/jumpbox_plugin_chrome/circuit.js:274-336 | the answer goes back if and only if its body is not null; push and client get the server's status and reason, or 555 and "Request not made" for status 0, its content type and body, and the cookie the page finds, which is the server's first, if not empty, unless the server itself sends a DJB-Set-Cookie; the daemon misses something if and only if the reason is empty |
| `Transparency.AllCookiesArrive` | plugin/jumpbox_plugin_chrome/background.js:287-293 | the client sees exactly the cookies the server set if and only if there is one, not empty, and no DJB-Set-Cookie from the server, or none, and no such header or a single empty one |
| `Transparency.AnswerFindsItsClient` | server/djb.c:307-338 | in any state with the request outstanding, the push made from its server's answer completes this request, unless the reason is missing, which is refused with 504 |
| `Transparency.ForwardValue` | server/djb.c:1223-1279 | what the plugin finds under each header name in the answer to its pull |
| `Relay.AnswerPull` | server/djb.c:1223-1302 | writing the answer to the pull: the body of a POST and its content type, or text/html; for every other method the short HTML body |
| `Relay.AnswerClient` | server/djb.c:465-511 | writing the answer to the client |
| `Transparency.TranslatedForward` | plugin/jumpbox_plugin_chrome/circuit.js:219-266 | what the plugin makes of a forwarded request |
| `Relay.JbResponse2Request` | plugin/jumpbox_plugin_chrome/circuit.js:196-268 | it throws if and only if the method is neither GET nor POST, the address is missing, or a POST has no content type; otherwise the request object has the method, address and body, the mark, the cookie if there is one and the content type of a POST |
| `Relay.SsResponse2Request` | plugin/jumpbox_plugin_chrome/circuit.js:274-336 | it throws if and only if the body is null, when its size is read; otherwise the push has the number, the server's status and reason, or 555 and the fixed reason for status 0, its cookie and content type, and its body |
| `Transparency.OnWireValues` | plugin/jumpbox_plugin_chrome/background.js:239-278 | what a receiver finds under each of the relay's names when a request has passed the header handler among the browser's own headers |
| `Transparency.OnWireOthers` | plugin/jumpbox_plugin_chrome/background.js:239-278 | every header name the handler is not about has its values on the wire, in order and as often as before |
| `Transparency.OnWireCookies` | plugin/jumpbox_plugin_chrome/background.js:266-276 | the cookies a receiver finds are those of the browser, in order, with the value of the first DJB-Cookie somewhere among them |
| `Transparency.AtThePageCookies` | plugin/jumpbox_plugin_chrome/background.js:280-296 | what the page finds under DJB-Set-Cookie: the server's own headers of that name, with its first cookie somewhere among them |
| `Circuits.CircuitInvariant` | plugin/jumpbox_plugin_chrome/circuit.js:117-177 | in every reachable state a circuit has exactly one thing pending until a fatal event, which is the last; requests out are requests in, plus restarts, plus one when a daemon request is pending or the circuit stopped on the daemon's answer; a timer that runs has 2000 + 1000 times the last digit of the restarts to wait |
| `Circuits.CountersCount` | plugin/jumpbox_plugin_chrome/circuit.js:137-159 | requests in count the answers that were sent on, restarts the failures to reach the daemon |
| `Circuits.StepBalances` | plugin/jumpbox_plugin_chrome/circuit.js:117-177 | one event keeps the balance, and stops the circuit if and only if it is fatal |
| `Circuits.ForwardStopsCircuit` | plugin/jumpbox_plugin_chrome/circuit.js:222-224 | the daemon's own answer stops a circuit if and only if the client's method is neither GET nor POST |
| `Circuits.Circuit.constructor` | plugin/jumpbox_plugin_chrome/circuit.js:28-44 | a circuit begins with its first request to the daemon |
| `Circuits.Circuit.JbNext` | plugin/jumpbox_plugin_chrome/circuit.js:117-135 | one more request to the daemon, counted |
| `Circuits.Circuit.Restart` | plugin/jumpbox_plugin_chrome/circuit.js:90-100 | counts the restart and arms one timer; the wait goes from two to eleven seconds with the last digit of the count |
| `Circuits.Circuit.HandleJbNextResponse` | plugin/jumpbox_plugin_chrome/circuit.js:137-159 | the state after each report about a request to the daemon |
| `Circuits.Circuit.HandleSsPushResponse` | plugin/jumpbox_plugin_chrome/circuit.js:161-177 | the state after each report about a request to the stego server |
| `RendezvousSafety.NoOnionFreedTwice` | server/rendezvous.c:52-137 | over every run, with resets and images at any moment, an allocated onion is current, the worker's result, freed once, or overwritten once; none is freed twice or used as current after it was freed |
| `RendezvousSafety.CarefulExactly` | server/rendezvous.c:278-382 | a step from a state in which the worker, its result and its flags fit the current onion leads to such a state if and only if it is careful: no reset while the worker runs, no new image while its result is open, unless the new onion is just the one in work |
| `RendezvousSafety.LeaksExactly` | server/rendezvous.c:348-350 | a step leaks an onion if and only if it is an accepted image over a current onion, or a delivery (line 457) over a result that was not taken |
| `RendezvousExact.NextStepMixesExactly` | server/rendezvous.c:52-382 | after every careful run the next step lets worker steps and peels bring the current onion off its way down, read a freed onion, or leave a started thread without its onion, if and only if it is harmful: a reset while the thread has not begun or computes on the current onion; an image whose first proof-of-work layer is not the one in work or of the waiting result, or that is no proof-of-work when a started thread has not begun |
| `RendezvousExact.HarmlessExactly` | server/rendezvous.c:52-382 | the same from every state in which the worker fits the current onion |
| `RendezvousExact.WrongResultMixes` | server/rendezvous.c:525-530 | from every state with a result that is not for the first proof-of-work layer below the current onion, peels take it and leave the way down |
| `RendezvousDescent.PeelingDescends` | server/rendezvous.c:409-536 | in every careful run the current onion is a layer of the last accepted one, peels done and layers left add up to its depth, and every NET given to ACS is the innermost payload of the onion accepted then |
| `RendezvousDescent.OneLayerAtATime` | server/rendezvous.c:490-645 | a peel request leaves the current onion or replaces it by the one layer inside, and frees the old one |
| `RendezvousPeels.FailedPeelKeeps` | server/rendezvous.c:409-693 | a peel whose signature does not verify, whose puzzle is not solved, whose payload does not parse or whose thread or file cannot be made changes nothing, if and only if no finished proof-of-work result waits |
| `RendezvousPeels.SuccessfulPeel` | server/rendezvous.c:409-693 | what a successful peel does to each kind of onion, and to nothing else |
| `RendezvousPeels.PowPeel` | server/rendezvous.c:490-536 | with a worker started, a peel takes a finished result and clears the flags, or changes nothing |
| `RendezvousPeels.LayerOffOnlyBy` | server/rendezvous.c:409-693 | any step: a layer comes off if and only if a signature verifies, a puzzle is solved, or a finished result is taken; a NET is given if and only if a payload parses |
| `RendezvousPeels.EveryGuardedLayerWasPassed` | server/rendezvous.c:596-693 | in every careful run the signed and captcha layers that came off the last accepted onion are as many as the signatures that verified and the puzzles that were solved since |
| `RendezvousPeels.EachNetWasPeeled` | server/rendezvous.c:409-443 | in every run each NET given to ACS comes from a successful peel of a current onion with that payload |
| `RendezvousDescent.DepthManySuffice` | server/rendezvous.c:409-645 | from rest an onion with a payload is peeled by its schedule in exactly as many peels as it is deep, and its payload is handed to ACS once |
| `RendezvousDescent.NoReadAfterFree` | server/rendezvous.c:448-470 | in every careful run the worker never reads a freed onion |
| `RendezvousDescent.StaleWorkerGivesOldNet` | server/rendezvous.c:348-350 | a run with a new image under a running worker: ACS gets the NET of the old onion |
| `RendezvousDescent.LateImageGivesOldNet` | server/rendezvous.c:348-350 | the same for an image between the worker's end and the request that takes its result |
| `RendezvousDescent.ResetUnderTheWorker` | server/rendezvous.c:64-84 | a run with a reset under a running worker: it reads the freed onion and leaves its result behind |
| `RendezvousDescent.WorkerFindsItsOnion` | server/rendezvous.c:448-455 | in every careful run a started thread finds the onion it needs when it runs |
| `RendezvousDescent.WorkerMissesItsOnion` | server/rendezvous.c:448-455 | runs with a reset, or an image of another kind, between starting the thread and its first read: no onion is there, or a wrong one |
| `RendezvousDescent.OneCaptchaImage` | server/rendezvous.c:639-645 | between two resets at most one captcha image is written |
| `RendezvousDescent.SecondCaptchaUnseen` | server/rendezvous.c:539-593 | of two captcha layers the second never gets an image of its own short of a reset |
| `RendezvousDescent.FailedPowStays` | server/rendezvous.c:515-518 | a failed proof-of-work stays failed until a reset, for later onions too |
| `RendezvousDescent.PeelIsAlwaysPossible` | server/rendezvous.c:545 | the assertion that the image's directory is set never fails |
| `RendezvousDescent.PercentRises` | server/rendezvous.c:474-486 | the percentage is the whole part of a hundred times the progress over the attempts; it rises, and is a hundred at the end only |
| `RendezvousState.Rdv.ResetRequest` | server/rendezvous.c:128-137 | the reset request, in place: no onion, no image, no captcha file and no worker are left, and the onion and a result that was not taken are freed |
| `RendezvousState.Rdv.PowReset` | server/rendezvous.c:64-84 | frees a result that was not taken and clears the flags, if a worker was started |
| `RendezvousState.Rdv.ImageRequest` | server/rendezvous.c:276-382 | an accepted image overwrites the current onion without freeing it; a rejected one changes nothing |
| `RendezvousState.Rdv.PeelRequest` | server/rendezvous.c:696-780 | every kind of onion: the new state and the answer; a peel without success changes nothing, except for taking a finished proof-of-work's result |
| `RendezvousState.Rdv.PeelBase` | server/rendezvous.c:409-443 | hands the payload to ACS if and only if it parses |
| `RendezvousState.Rdv.PeelPow` | server/rendezvous.c:490-536 | a result that waits replaces the onion, which is freed, and the flags are cleared; otherwise at most the worker is started |
| `RendezvousState.Rdv.PeelCaptchaNoImagePath` | server/rendezvous.c:539-593 | writes the captcha file, or leaves no path |
| `RendezvousState.Rdv.PeelCaptchaWithImagePath` | server/rendezvous.c:596-634 | only a right answer frees the onion and puts the inner one in its place; otherwise everything is as before |
| `RendezvousState.Rdv.PeelSigned` | server/rendezvous.c:648-693 | only a signature that verifies frees the onion and puts the inner one in its place; otherwise everything is as before |
| `RendezvousState.Rdv.WorkerReads` | server/rendezvous.c:449-455 | the thread reads the current onion when it runs, not when it is started |
| `RendezvousState.Rdv.WorkerDelivers` | server/rendezvous.c:457-460 | the result, or none, overwrites the shared variable |
| `RendezvousState.Rdv.WorkerFinishes` | server/rendezvous.c:466-467 | then the flag is set |
| `RendezvousState.AnswerMeans` | server/rendezvous.c:409-780 | a peel is answered with one of six successes if and only if it took a layer off, gave a NET, started a worker or wrote a captcha image, each to its own; after any other answer everything is as before |
| `RendezvousState.AnswerSaysWhy` | server/rendezvous.c:409-780 | which answers belong to which kind of onion and state |
| `Preferences.LastStringWins` | server/preferences.c:446-491 | after any history of posts a value is the last string posted for its key, or its default if there was none |
| `Preferences.Store.ParsePreferences` | server/preferences.c:448-491 | overwrites the values in place for the keys that hold strings, and nothing unless the document is an object |
| `Preferences.Store.GetValue` | server/preferences.c:40-51 | the value, else the default; nothing for an unknown number |
| `Preferences.Store.SetValue` | server/preferences.c:55-72 | one value is replaced, or none for an unknown number |
| `Preferences.Store.GetArgv` | server/preferences.c:99-208 | every outcome: given up, a vector that equals the layout, or a write outside the array at the first slot behind it, which happens exactly when the size wrapped around |
| `Preferences.ArgcIsSlots` | server/preferences.c:120-155 | the 32-bit argc equals the number of slots if and only if that number is below 2^32, and is less otherwise |
| `Preferences.CircuitBound` | server/preferences.c:120-155 | up to 2^31 - 5 circuits argc equals the slots; with 2^31 - 4 and both options it is 1 |
| `Preferences.Layout` | server/preferences.c:164-197 | all slots but the last hold strings and the last is the end mark, as many as the options and circuits ask for |
| `Preferences.LayoutFixed` | server/preferences.c:164-178 | the first five slots |
| `Preferences.LayoutOptions` | server/preferences.c:179-190 | then packet tracing if it is asked for, the secret, the environment's before the preferences', cut off after 255 characters, if there is one, and the proxy's address |
| `Preferences.LayoutCircuits` | server/preferences.c:192-197 | at the end an address and a module for each circuit, the environment's before the preferences', and the end mark |
| `Preferences.PairsAreSet` | server/preferences.c:192-195 | each circuit has its address and its module, in this order |
| `Preferences.PositiveExactly` | server/preferences.c:203-207 | the number returned is positive, as the caller checks, if and only if there are less than 2^31 slots |
| `Preferences.FreeArgv` | server/preferences.c:211-219 | frees the slots it is told of, in bounds if and only if there are that many |

## Left out

- Body streams (`httpsrv_forward`): the forward of a body is part of the step that publishes or
  completes the request.
- Threads of rendezvous requests running into each other: a request is one step there, since the
  variables are without a lock and only the worker runs beside them.
- What a proof-of-work thread does that finds no onion, or one of another kind, when it starts to
  run: it has no step. `RendezvousDescent.WorkerMissesItsOnion` says when that happens.
- `l_pow_thread_quit`: set by a reset and read by nobody.
- A failing `strdup` in the preferences, which makes a value its default again, and the values of
  `atoi` outside the range of int.
- A failing `json_dumps` in `acs_set_net`, which leaves out one message.
- The unit of `thread_sleep`: the waiting time is proved, not the multiplication by a thousand.
- Counting bytes in the plugin, and `responseType` beyond the blob it is set to.
- `prf_parse_bridge_details`, which has no caller, and `prf_br_list`, a projection of parsed JSON.
- HTML, CSS, status pages, logging, daemonizing, signals, process launching, tab management and the
  other pages of the plugin: input and output.
- Cryptography, steganography, JSON and date parsing: library code behind the choices above.
- twistedServer: a stand-in for the stego server.
- Preferences.FreeArgv: does not say which memory is released, only which slots are visited.
