# Longshot: progress streaming and job control

Longshot runs a long job in a worker and streams its progress to any number of browsers over Redis and
server-sent events. This project models the three parts of it that are hard to get right, in Dafny, and
proves what they promise.

**The stream** (`app/publish.py`, `app/api.py`). Producers put events on a session's queue; one drainer per
session numbers each event with INCR and then issues RPUSH, EXPIRE, SET and PUBLISH as separate commands.
Readers SUBSCRIBE, then LRANGE, replay, then tail and drop what they have replayed. `Protocol` is the step
relation of one session, one Redis command or one await-free stretch of code per step, so that a run is an
arbitrary interleaving; drainers may halt at any step and workers may crash. `Delivery` proves exactly-once,
in-order delivery; `Ledger` the publisher's books; `Orphans`, `Restarts` and `Numbers` what is left of it when a
drainer halts and another one takes over, or keys expire; `Sharpness` that both orderings the code insists on are
needed. `Progress` proves that drainers get done, and that the one of a closed session exits. `FirstEmit` takes `_get_or_create` apart, lock and second check included. `World` puts many sessions with their real key
names into one Redis keyspace and projects them onto single sessions. `Deployment` holds the publisher, its
drain loop and the SSE generator as a class whose methods are written like the originals and are proved to
take steps of that world, whatever the other coroutines do at each await.

**The job** (`app/tasks.py`). `Job` is `run_job` with its two pipelines as a machine that moves from one
suspension point to the next; the environment answers each suspension with a value, an exception, the hard
timeout or the end of the worker. Nothing suspends between two emits of one move, because `emit` never does.
`JobGrammar`, `JobReach` and `JobTheorems` say exactly what sequences of events come out, `JobAnswers` and `JobSays`
what each job makes of the answers it gets and what it asks for; `JobRunner` is the imperative form, with
the loops and handlers of the original, proved equal to the machine. `JobLock` is the timed lock, and `JobSession`
puts the lock, the deliveries, the workers with their publishers and the session's stream together. `EndToEnd`
composes job and stream.

**The texts** (`app/pipeline.py`). `ThinkScanner` is the streaming think-stripper, `ThinkBatch` the regex form
of it, `LetterCase` has what both do with tags in any casing, `StreamLoop` is the line loop that drives the scanner,
`Chunker` the chunker; `Text` has the string operations they use.

`dfyconfig.toml` lists the files: `dafny verify dfyconfig.toml` checks the project.

## Assumptions

- A Redis command takes effect at once and does not fail; a drainer may halt (or be cancelled) between any two.
- Pub/Sub is first-in first-out and loses nothing while a connection is attached. SUBSCRIBE has taken effect when
  `await pubsub.subscribe` returns: LRANGE goes over another connection and must not overtake it.
- Encoding an event and decoding it again gives the same event.
- `lower()` acts on single characters and keeps the length, as it does on ASCII text; `strip()` and `\s` use
  the same set of whitespace characters.
- Time limits are kept: timeouts fire when they are due and cancellation is prompt.

Drainers of one session must not overlap in time; `Sharpness.OverlapReorders` shows what an overlap does. That is not
assumed: `JobSession` proves that the timed lock sees to it exactly when the time limits fit below its time to live. The
exactly-once theorems ask in addition that a drainer is not restarted while some reader waits for an event its
predecessor listed and never published (`Settled` in `Protocol`). `Orphans` proves when that is necessary, `Restarts` and
`Numbers` what holds without it, and `JobSession.RedeliveredJobIsExact` that a job which takes its lock once always
meets it, however often it is delivered.

## Where code and documentation differ

The model follows the code.

- `app/api.py:134-144` promises that nothing is lost however RPUSH and PUBLISH interleave with the reader. That
  needs RPUSH before PUBLISH within one event (`Sharpness.PublishFirstLoses`), which the drainer guarantees.
- `app/publish.py:1-25` promises that every event reaches the list and the channel. A drainer that halts between
  the two leaves an event in the list that live readers never get (`Orphans.RestartIsSafeExactlyWhenSettled`).
- `app/tasks.py:11` says a client always learns of an error. A `FetchError` or `SummarizeError` raised where the
  pipeline does not report it ends the job with status ERROR and no event; `JobTheorems.ExactlyOneTerminalEvent`
  has the exact condition. No call in today's pipeline raises one there.
- `app/keys.py:25,30` says that redeliveries are no-ops and that a disconnect sets the cancel flag. The first
  holds until the lock expires (`JobLock`), the second not at all (`World.OnlyAnExplicitCancelFlags`).
- `app/publish.py:92-94` checks the dictionary again inside the lock. As the event loop schedules, nothing suspends
  between the two checks and the second one never finds anything (`FirstEmit.NeverFoundInTheLock`).
- `app/pipeline.py:253-255` means to handle an opening tag without a closing one. The fallback also strikes when
  removing a block joins its surroundings into a new tag, and then drops text the stream has shown
  (`ThinkBatch.JoinedTagDisagrees`, `ThinkBatch.AgreementIsTheFallbackGuard`).

## Model

| member | source | states |
|---|---|---|
| Delivery.ExactlyOnceInOrder | app/api.py:145-193 | under every interleaving of single commands, every reader's output (keepalives erased) is a prefix of the event list, the list's seqs strictly increase, and a reader that stopped by itself stopped exactly at the first terminal event |
| Delivery.RunKeepsInv | app/publish.py:110-130 | the session invariant behind delivery: every attached reader's output, unreplayed backlog and fresh inbox together are exactly what it is owed, at every step of every serial run |
| Delivery.ReconnectsAgree | app/api.py:168-173 | outputs of any two readers of a session, taken at any two moments of a run, are prefix-comparable |
| Delivery.DrainedReaderIsCurrent | app/api.py:174-193 | a tailing reader with an empty inbox has sent the whole list, if its newest event is published |
| Delivery.TailerHasMoreComing | app/api.py:174-193 | a reader still tailing while the published list ends in a terminal event has that event in its buffer and will not drop it as a duplicate |
| Delivery.AfterRange | app/api.py:146-156 | LRANGE after SUBSCRIBE gives a reader exactly the list, whatever was buffered in between |
| Delivery.AfterYield | app/api.py:157-162 | one turn of the replay loop keeps what the reader is owed, and stops right after a terminal event |
| Delivery.AfterPoll | app/api.py:182-193 | one turn of the tail loop keeps what the reader is owed: dedupe, yield and stop |
| Delivery.AfterSilent | app/api.py:182-186 | a read that came back with nothing sends exactly one keepalive and changes nothing of what is owed, whether time ran out or only the subscription's confirmation was read while messages wait |
| Delivery.SilentForGood | app/api.py:174-196 | a reader that has stopped or left is sent nothing more, whatever happens |
| Delivery.AfterPublish | app/publish.py:124 | PUBLISH of the newest listed event gives each reader it once, whether it saw it in its backlog or not |
| Ledger.Conservation | app/publish.py:102-125 | at every step the events emitted are those listed, then the one in the drainer's hand, then those queued; after the sentinel they are the list, and all published |
| Ledger.ProducerOrderKept | app/publish.py:15-24 | with any number of concurrent producers, each one's events are listed in the order it emitted them |
| Ledger.EmittedByRun | app/publish.py:69-76 | no emit of a run is lost on its way into a queue, also across `close` and re-creation |
| Numbers.ContiguousRun | app/publish.py:115-121 | the seqs listed by one drainer are contiguous from the counter it found, also if it halts, and also if it follows a drainer that halted anywhere |
| Numbers.WriteStageChain | app/publish.py:115-125 | published <= snapshot <= pushed <= counter <= published + 1, measured from the start of the drainer's run, at every step of every run of non-overlapping drainers |
| Numbers.NeverGoesBack | app/keys.py:19-21 | because the counter never expires: over any non-overlapping drainers, with the list and snapshot expiring at any times in between, the seqs of all that was ever listed strictly increase |
| Numbers.ExpiringCounterGoesBack | app/keys.py:19-21 | if the counter expired with the list, the next event listed would not get a higher seq than all before it |
| Ledger.WholeSequence | app/publish.py:78-87 | once the drainer has exited through the sentinel and a reader has drained its inbox, the reader's output is the whole sequence of emitted events |
| Progress.ClosingStops | app/publish.py:110-113 | a drainer with the sentinel in its queue exits within as many own steps as its stage and the entries before the sentinel need (at most 7 per event), whatever else happens in between, unless it is halted |
| Progress.ReleasedDrainerStops | app/publish.py:80-87 | after any run whatsoever, a live drainer its publisher has let go of exits within that many own steps |
| Progress.CloseDrains | app/publish.py:78-87 | from every state of a tidy run, `close` and that many own steps of the drainer end with its exit, and with everything emitted listed and published, in order |
| Progress.ClosingStopsAmongOthers | app/publish.py:110-113 | the same in a world of many sessions |
| Ledger.OneRunIsTidy | app/tasks.py:141-142 | a run that emits nothing after `close` or a crash meets the conditions of the theorems above, wherever its drainer halts |
| Ledger.RunKeepsInv | app/publish.py:102-125 | the books balance at every step, and runs that leave nothing behind are serial and without overlap |
| Restarts.AtMostOnceInOrder | app/publish.py:110-125 | over any number of non-overlapping drainers, each halting anywhere, the list's seqs strictly increase and no reader is sent anything twice, out of order or unlisted |
| Restarts.CaughtUpReaderHas | app/api.py:153-193 | a caught-up reader was sent exactly what its LRANGE found and what was published, no more and no less |
| Orphans.RestartIsSafeExactlyWhenSettled | app/publish.py:115-125 | after all drainers are dead, a new one keeps every continuation's readers on prefixes of the list if and only if no reader waits for an event that was listed but never published, or a terminal event lies before that one; the orphan may be the job's terminal event |
| Orphans.StrandedReaderLoses | app/publish.py:115-125 | for every such waiting reader with no terminal event before the orphan, a continuation in which it is sent the next event without the orphaned one |
| Orphans.RunStaysEnded | app/api.py:161-193 | readers bound to stop at a terminal event already listed stay on prefixes of the list whatever any drainers do afterwards |
| Orphans.Flush | app/api.py:157-193 | left alone, a reader comes to rest within as many turns as it has work: in its tail loop with exactly what it was owed, or finished at the first terminal event in it |
| Sharpness.PublishFirstLoses | app/publish.py:120-125 | with PUBLISH before RPUSH, from every state that is about to list an event and has no terminal event listed, a run in which a fresh reader never gets that event |
| Sharpness.RangeFirstLoses | app/api.py:134-146 | with LRANGE before SUBSCRIBE, the same loss, again from every state about to list an event with no terminal event listed |
| Sharpness.OverlapReorders | app/publish.py:115-121 | if an emit starts a second drainer while a closed session's first one still holds a number, the list can end up out of order |
| FirstEmit.OneDrainerPerSession | app/publish.py:89-100 | for every interleaving of racing first emits: at most one queue and drainer per session, every put on the registered one, in the order of the puts |
| FirstEmit.ReturnedHasPut | app/publish.py:69-76 | an emit that returned has put its event |
| FirstEmit.RunKeepsInv | app/publish.py:89-100 | mutual exclusion and registration invariants of check, lock, second check, create, register |
| FirstEmit.NeverFoundInTheLock | app/publish.py:89-100 | as the event loop schedules, with no suspension on a free lock, every emit goes through without waiting and the check inside the lock never finds a session: without it the runs are the same |
| FirstEmit.SecondCheckIsNeeded | app/publish.py:90-94 | in a preemptive variant, where calls may also be stopped between the first check and the lock, two first emits would start two drainers for one session without the second check |
| Keys.KeysDisjoint | app/keys.py:4-31 | no two sessions share a key, and list, snapshot, counter, lock and cancel keys never coincide |
| World.Isolation | app/publish.py:60-125 | with any number of sessions interleaved, each session's dictionary entry, drainers, counter, list, snapshot and readers are those of the run projected onto it alone |
| World.MoveProjects | app/publish.py:60-125 | one event of the world is at most one step of each session, and the same one the session would take alone |
| World.FanoutProjects | app/publish.py:124 | a payload published on a session's channel reaches that session's readers and no others |
| World.RunKeepsKnown | app/publish.py:89-100 | the publisher's dictionary never refers to a drainer of another session |
| World.OnlyAnExplicitCancelFlags | app/api.py:164-179 | a session's cancel flag is found set if and only if that session was cancelled explicitly and the flag has not expired since: no disconnect, crash or other session sets it |
| World.CancelProjects | app/api.py:206-210 | neither cancelling a session nor the expiry of its flag changes any session's stream |
| Deployment.Longshot.GetOrCreate | app/publish.py:89-100 | returns the registered drainer, creating and registering exactly one if there is none |
| Deployment.Longshot.Emit | app/publish.py:69-76 | routes by session id and puts, as one step of the world, since nothing in it suspends |
| Deployment.Longshot.Close | app/publish.py:78-87 | pops the session and puts the sentinel; on return the drainer has exited or was cancelled at the limit; if the drainer got as many steps as it had work and nobody halted it, it has exited and there was no timeout; no-op for an unknown session |
| Deployment.Longshot.Drain | app/publish.py:102-130 | the drain loop takes exactly its own steps of the world, woven with whatever the others do at each await, until sentinel or cancellation |
| Deployment.Longshot.WriteOut | app/publish.py:115-130 | the six commands of one event, in order, each one step of the world, cut off anywhere |
| Deployment.Longshot.Replay | app/api.py:157-162 | the replay loop refines the replay steps and ends in the tail loop, at a terminal event, or with the client gone |
| Deployment.Longshot.Tail | app/api.py:174-193 | the tail loop refines the tail steps and ends only at a terminal event or with the client gone |
| Deployment.Longshot.EventSource | app/api.py:133-196 | the SSE generator, whatever runs at its awaits and whenever the client leaves: what it sent is a prefix of the list, and it ends by itself only at the first terminal event |
| Deployment.ConnectionIsFaithful | app/api.py:133-196 | the delivery theorem for one connection in a world of many sessions |
| JobLock.AcquisitionsApart | app/tasks.py:81-90 | two successful acquisitions for one session are at least the time to live apart, under any redeliveries |
| JobLock.TakenExactlyWhenExpired | app/tasks.py:81-90 | after any run, a new delivery takes its session's lock if and only if every logged acquisition of that session is at least the time to live old; otherwise it changes nothing |
| JobLock.LockIsolation | app/keys.py:24-26 | expiry, deliveries and acquisitions of one session are those of the run without the deliveries of all other sessions |
| JobLock.DeliveryRunsItsCourse | app/tasks.py:81-142 | a delivery that got the lock enters, leaves and returns, or is killed, and is gone, while the lock stays until it expires |
| JobLock.PhasesAreTimed | app/tasks.py:93-106 | in every prompt run a delivery is before its pipeline at most the start delay, in it at most the hard timeout longer, and in `close` at most its limit longer |
| JobLock.OneBody | app/tasks.py:93-106 | at most one pipeline body per session is alive in every prompt run, if the limits fit below the time to live |
| JobLock.OverlapIsPossible | app/tasks.py:81-107 | if they do not fit, a prompt run with two bodies of one session |
| JobLock.ExclusiveExactlyWhenLimitsFit | app/tasks.py:81-107 | the timed lock excludes if and only if start, hard timeout and close limit add up to less than its time to live |
| JobLock.DefaultsExclude | app/settings.py:65-66 | the default settings exclude if and only if a delivery enters its pipeline less than 475 seconds after it took the lock |
| JobSession.OneBodyOneDrainer | app/tasks.py:81-142 | with limits that fit, under any redeliveries to any workers, losses of workers and halts of drainers: at most one body and one live drainer of the session, and its stream sees a run whose drainers do not overlap |
| JobSession.TakenExactlyWhenExpired | app/tasks.py:81-90 | the same condition with workers and stream: a new delivery takes its session's lock if and only if all acquisitions of that session have expired, and otherwise changes nothing |
| JobSession.CloseComesBack | app/publish.py:83-87 | in every prompt run, a delivery in `close` returns after as many steps of its drainer as that one has work, which is dead by then |
| JobSession.OneDrainerExactlyWhenLimitsFit | app/publish.py:83-87 | the timed lock keeps every session to one live drainer if and only if start, hard timeout and close limit add up to less than its time to live |
| JobSession.TwoDrainersArePossible | app/tasks.py:81-107 | if they do not, a prompt run in which two workers drain one session |
| JobSession.DuplicateChangesNothing | app/tasks.py:87-90 | a delivery while the lock of its session is held changes nothing, and none changes the stream by itself |
| JobSession.RedeliveriesKeepOrder | app/tasks.py:81-90 | however often a job is redelivered, also after its lock expired, no client is sent anything twice or out of order |
| JobSession.RedeliveredJobIsExact | app/tasks.py:81-142 | a job that takes its lock once, however often it is delivered, is one run of the publisher: every client is sent a prefix of the list and a stream that closed by itself got all of it up to the terminal event |
| JobSession.OneAcquisitionIsOneRun | app/tasks.py:141-142 | with one acquisition, nothing is emitted after the session is closed or its worker lost |
| JobGrammar.EveryRunConforms | app/tasks.py:92-142 | for every choice of deltas, failures, cancels and timeouts, what a job emits is its complete chat or URL form, or a legal prefix of it and one cancelled event or one error whose reason fits the place |
| JobGrammar.ExecConforms | app/tasks.py:150-285 | the same from every suspension point |
| JobReach.GrammarIsExact | app/tasks.py:92-285 | a trace and a returned status conform to the grammar if and only if some run, for some choice of deltas, failures, cancels and timeouts, emits the one and returns the other |
| JobReach.CompletionHappens | app/tasks.py:157-285 | every complete chat or URL trace whose chunk count fits its text length is emitted by some run that returns OK |
| JobReach.ErrorHappens | app/tasks.py:114-142 | every legal prefix followed by an error at a place its reason allows is emitted by some run that returns the matching status |
| JobReach.PointHasPrefix | app/tasks.py:157-285 | every legal prefix is what has been emitted at a definite suspension point |
| JobGrammar.SuspendedIsLegal | app/tasks.py:157-285 | what has been emitted at a suspension point extends to a complete trace and is never cut between an emit and the code just after it |
| JobGrammar.StepStaysSuspended | app/tasks.py:157-285 | from one suspension point to the next, the trace stays the one that its local variables determine, and summaries never outnumber chunks |
| JobTheorems.ExactlyOneTerminalEvent | app/tasks.py:92-142 | at most one terminal event, in last position; there is one if and only if the worker survives and no call raises a pipeline error outside the handler that reports it |
| JobTheorems.StatusMatchesOutcome | app/tasks.py:87-142 | unless a pipeline error strays: OK iff DONE, CANCELLED iff CANCELLED, TIMEOUT iff error(timeout), ERROR iff error(fetch, chunk, summarize or synthesize), re-raise iff error(unknown); and always DUPLICATE_DELIVERY iff this delivery emitted nothing iff it did not get the lock |
| JobTheorems.StrayEndsSilently | app/tasks.py:128-131 | a pipeline error raised outside its handler ends the job with status ERROR and no terminal event |
| JobTheorems.CompletedRunsBalance | app/tasks.py:161-285 | DONE.summary is the concatenation of the TOKEN deltas, all announced lengths are its length, chunk indices are 0..n-1 with n the announced total and count, 1 <= n <= max_chunks in URL mode |
| JobTheorems.CancelBound | app/tasks.py:54-56 | once every EXISTS finds the flag, a run emits at most 5 more events, at most one of them a TOKEN or CHUNK_SUMMARIZED, wherever it was suspended |
| JobTheorems.CancelBoundIsTight | app/tasks.py:253-285 | five are reached: flag set just after the checkpoint before FINAL_STARTED, empty stream |
| JobTheorems.FlaggedRunIsShort | app/tasks.py:161-182 | the bound for each suspension point |
| JobAnswers.CleanChat | app/tasks.py:157-183 | a chat that is never flagged and never fails emits the complete trace with exactly the deltas it was answered with, and returns their concatenation |
| JobAnswers.CleanUrl | app/tasks.py:200-285 | a URL job that is never flagged and never fails emits the complete trace with exactly the length of the page, the summaries and the deltas it was answered with |
| JobAnswers.EmptyPage | app/tasks.py:216-225 | a page without text ends the job with error(chunk) and status ERROR |
| JobAnswers.ChatLeads | app/tasks.py:163-171 | which suspension point a chat is at after which answers |
| JobAnswers.UrlLeads | app/tasks.py:203-250 | which suspension point a URL job is at after which answers, up to the chunk loop |
| JobAnswers.FinalLeads | app/tasks.py:253-270 | and in the synthesis |
| JobAnswers.FailureDecides | app/tasks.py:114-142 | for every suspension point and every exception: which error is reported there, if any, and what is returned |
| JobAnswers.FlagDecides | app/tasks.py:54-56 | a flag found at a checkpoint cancels the job there and then, and nothing else looks at it |
| JobSays.ChatSays | app/tasks.py:161-171 | in every chat, whatever is answered: the TOKENs are, in order and unchanged, the deltas that were followed by a clear checkpoint |
| JobSays.UrlSays | app/tasks.py:228-270 | in every URL job, whatever is answered: the CHUNK_SUMMARIZED events are the summaries answered after clear checkpoints, unchanged and numbered in order, and the TOKENs the deltas followed by a clear checkpoint once all chunks were summarized |
| JobSays.StartsWithInput | app/tasks.py:157 | the first event is STARTED with the URL, or with the first 200 characters of the prompt |
| JobSays.ChatAsks | app/tasks.py:163-168 | a chat asks for deltas of its prompt and for the flag, and for nothing else |
| JobSays.UrlAsks | app/tasks.py:206-266 | a URL job asks for its page, then for the summary of chunk i with index i, in order, at least as many as it reports, and then for deltas of a synthesis of exactly the summaries it got |
| JobSays.BulletsConcat | app/tasks.py:256 | the synthesis prompt has one bullet for each summary, in order, with a blank line between any two |
| JobRunner.Worker.RunChat | app/tasks.py:150-183 | the chat pipeline with its loop and handler ends as the machine says, whatever the environment answers |
| JobRunner.Worker.StreamAnswer | app/tasks.py:162-178 | its token loop: all the deltas, or the first cancel or failure |
| JobRunner.Worker.RunUrlPipeline | app/tasks.py:191-285 | the URL pipeline ends as the machine says |
| JobRunner.Worker.SummarizeEach | app/tasks.py:227-250 | the chunk loop: one summary and event per chunk, or the first cancel or failure |
| JobRunner.Worker.Synthesize | app/tasks.py:252-285 | the synthesis stage ends as the machine says |
| JobRunner.Worker.StreamFinal | app/tasks.py:257-278 | its token loop, each delta checked for cancellation: all the deltas, or the first cancel or failure |
| JobRunner.Worker.RunJob | app/tasks.py:66-142 | a duplicate emits nothing, asks nothing and changes nothing, and only a duplicate emits nothing; a run with the lock emits the machine's trace, asks its questions, returns its outcome, conforms to the grammar, and closes the session behind it |
| EndToEnd.ClientSeesAPrefix | app/api.py:145-193 | at any moment a client has seen the beginning of the job's trace, each event once and in order |
| EndToEnd.FinishedClientSawTheJob | app/events.py:48-50 | a stream that closed by itself delivered the job's whole trace, whenever the client attached; it conforms to the grammar and a completed one adds up |
| EndToEnd.TerminalIsWaiting | app/publish.py:110-113 | once a terminated job's drainer has exited, a reader in its tail loop still has the job's terminal event in its buffer, not yet replayed |
| EndToEnd.NobodyWaitsForever | app/api.py:157-193 | and wherever a reader is then, a bounded number of its own turns close its stream, with the job's whole trace sent |
| EndToEnd.ClosedJobIsDelivered | app/publish.py:78-87 | once a job's whole trace is emitted and its session closed, that many steps of the drainer deliver it: what the two rows above ask for |
| EndToEnd.TerminatedJobIsDelivered | app/tasks.py:141-142 | every job that is not killed and reports its own errors can be delivered |
| ThinkScanner.StripThinkingStreaming | app/pipeline.py:392-413 | the index loop computes the leftmost-tag specification and terminates |
| ThinkScanner.CutExists | app/pipeline.py:396-413 | every text is kept text, flipping tags and swallowed text, each tag the first that flips the state |
| ThinkScanner.CutDeterminesScan | app/pipeline.py:396-413 | any such reading of a text is the scanner's: output and final state follow from it |
| ThinkScanner.ScanConcat | app/pipeline.py:385-389 | scanning two deltas in turn is scanning their concatenation, if no tag straddles the cut |
| ThinkScanner.SplitInvariance | app/pipeline.py:385-389 | for any tag-aligned split, threading the state through the deltas gives the text and state of one scan of the whole |
| ThinkScanner.OutsideShowsMore | app/pipeline.py:392-413 | started outside a block the scanner shows at least as much of any text as started inside |
| ThinkScanner.CutOpeningTagLeaks | app/pipeline.py:385-389 | a delta boundary inside an opening tag the scanner would have consumed always shows at least seven characters more |
| ThinkBatch.PostprocessLmstudio | app/pipeline.py:242-258 | the reassigning body computes the batch specification |
| ThinkBatch.ResidueRemovesTheFirstMatch | app/pipeline.py:31 | the residue removes exactly the regular expression's first match: leftmost, shortest body, longest whitespace; and nothing when nothing matches |
| ThinkBatch.ResidueAgainstScan | app/pipeline.py:249-252 | the residue is what the scanner shows, up to whitespace, and shows an opening tag whenever the scanner ends inside a block |
| ThinkBatch.BatchAgrees | app/pipeline.py:242-258 | batch and streaming output agree up to whitespace whenever the residue has no opening tag |
| ThinkBatch.AgreementIsTheFallbackGuard | app/pipeline.py:253-257 | for texts after which the scanner is outside a block, they agree if and only if the fallback's guard is false |
| ThinkBatch.CutOffInsideABlock | app/pipeline.py:253-257 | for texts cut off inside a block the fallback always runs, and drops everything if no closing tag is left |
| ThinkBatch.JoinedTagDisagrees | app/pipeline.py:250-257 | an input with balanced tags on which the batch form drops what the stream shows |
| LetterCase.TagInAnyCase | app/pipeline.py:400-406 | a tag is found exactly where the text reads like it up to the case of its ASCII letters |
| LetterCase.ScanIgnoresCase | app/pipeline.py:392-413 | scanning two texts that differ in letter case alone ends in the same state and keeps the same positions of both |
| LetterCase.ResidueIgnoresCase | app/pipeline.py:31 | the regular expression removes the same positions of both |
| LetterCase.BatchIgnoresCase | app/pipeline.py:242-258 | the whole postprocessing keeps the same of both, up to the case of what it keeps |
| LetterCase.BlockVanishes | app/pipeline.py:249-250 | a block whose tags are written in any casing vanishes from both forms, and what stands before and after it stays |
| LetterCase.PlainTextIsKept | app/pipeline.py:249-258 | a text without an opening tag is streamed as it is and trimmed by the batch form |
| LetterCase.FallbackKeepsTheRest | app/pipeline.py:253-258 | when an opening tag is left, the batch form is what follows the first closing tag, trimmed |
| LetterCase.FallbackDropsAll | app/pipeline.py:253-257 | and nothing if there is none |
| Text.AsciiSpaces | app/pipeline.py:31 | blanks, tabs and line ends are whitespace, and no visible ASCII character is |
| Text.StripTrims | app/pipeline.py:258 | trimming takes all whitespace off both ends and nothing else |
| StreamLoop.IterOpenaiStream | app/pipeline.py:360-389 | the line loop yields what survives of the content deltas of the parseable data lines before the first [DONE] |
| StreamLoop.ContentsOfLine | app/pipeline.py:370-384 | a line contributes the content of the first choice its payload parses to, if that is not empty, and any other line nothing |
| StreamLoop.ContentsConcat | app/pipeline.py:369-375 | lines contribute one after the other, as long as none of them ends the stream |
| StreamLoop.ContentsEnd | app/pipeline.py:374-375 | behind the first line that ends the stream nothing counts |
| StreamLoop.SurvivingIsThread | app/pipeline.py:385-389 | the yields concatenate to the threaded scan, and none is empty |
| StreamLoop.ContentsNonEmpty | app/pipeline.py:382-384 | no empty delta is passed on |
| StreamLoop.StreamIsOneScan | app/pipeline.py:360-413 | with tag-aligned deltas the yields concatenate to one scan of the whole model output |
| Chunker.ChunksConserve | app/pipeline.py:82-87 | the chunks concatenate to the first min(len, size * max_chunks) characters, number min(ceil(len / size), max_chunks), are non-empty and all but the last have exactly `size` characters |
| Chunker.WindowsCover | app/pipeline.py:86-87 | the first k windows cover exactly the first size * k characters |
| Chunker.WindowCount | app/pipeline.py:86 | the number of windows is the ceiling of len / size |

## Left out

- Fetching, HTML cleaning and the model calls (`app/pipeline.py:47-79` and `104-240`): the environment answers with a text, a sequence of deltas or an error.
- TaskIQ, consumer groups, message claiming and the retry middleware (`app/broker.py`): any delivery may come at any time.
- Validation and JSON encoding of requests, events and results; the clock field `ts`, error messages and the `by` field of a cancelled event.
- Routing, dispatch, health, heartbeat, settings loading, static files and user interface.
- The format of the event stream on the wire, and when a keepalive is due: keepalives are outputs that may come at any time in the tail loop.
- The EXPIRE commands are steps of the drainer. Keys expire at arbitrary moments, not at their times to live; for the list and snapshot only `Numbers.NeverGoesBack` has that, so what a reader gets of a list that expired under it is not modelled.
- Unsubscribing when a generator ends: a reader that has left or finished gets nothing more.
- A second cancellation that strikes inside `run_job`'s own handlers or its `finally`.
- `lower()` on text whose length it changes, and `aiter_lines`, which is taken to deliver whole lines.
- ThinkScanner.SplitInvariance: assumes that no tag straddles two deltas, because the scanner is not meant to see such a tag; `CutOpeningTagLeaks` shows what happens for an opening one.
- ThinkBatch.CutOffInsideABlock: one direction only; after a stray closing tag in the visible text the batch form shows what follows it, and the exact agreement condition there is a coincidence of texts.
- JobRunner.Worker.RunJob: the result of `SET NX` is a parameter and `close` only marks the session closed; the lock and the wait are those of `JobSession`, and `close` as written is `Deployment.Longshot.Close`.
- JobLock.OneBody: assumes, as do the theorems of `JobSession`, that timeouts fire on time; a worker whose event loop is blocked beyond them is not covered.
