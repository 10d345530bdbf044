# A verified model of the gateway and its job runner

The gateway pools accounts behind an OpenAI-compatible proxy; a second server, the automation
runner, logs accounts in, pays for them and hands them over. This project models the parts of
both that are algorithms with state, and proves what they promise over all inputs and all runs.
`dafny verify dfyconfig.toml` checks everything.

| file | what it models |
| --- | --- |
| `Bytes`, `Strings`, `Json`, `Seqs` | line splitting and trimming at byte level; JSON as a decoder/encoder pair with laws; sequences put together and taken apart |
| `Usage`, `Stream`, `Relay`, `Shape`, `Meaning`, `Endings` | the usage parser, the streaming rewriter, the copy loop over network reads, what the output looks like, what rewriting a line means, and what becomes of an unterminated last line |
| `KeyedFold`, `Ordered`, `Assembly`, `Assembler`, `Decoding`, `Contents`, `Splitting` | decoding a stream and folding its chunks into one completion, what each member of the answer says, and cutting a chunk in two |
| `Balancer`, `RateLimit`, `Requests`, `Availability`, `Retry`, `Fairness` | account choice, the sliding-window limit, interleaved requests, who is left alone, the retry loop, round robin |
| `Scheduler`, `JobKinds`, `JobLog` | the job queue with its two classes, the same seen from what was asked for, and the run-length encoded job log |
| `Sums`, `Metrics`, `Columns`, `DashboardHistory`, `DashboardReader`, `DashboardAnswer`, `Written` | hourly aggregates kept by triggers, the dashboard that reads them, and both as sums, column by column, over the logs that were written |
| `Transfer`, `Credentials`, `Exchange` | paginated transfer of results, watermarked import, exchange of credentials |
| `Document`, `Sections` | the scan of the model document |
| `CardLedger` | the two-slot ledger of prepaid cards, as counters |

How it is built. Code that updates fields is a class; each of its methods is proved equal to a
function on the value the object stands for (`View()`), and the theorems are about those
functions. Critical sections of a mutex and database transactions are single steps; theorems
about runs quantify over every sequence of enabled steps. JSON is a `Codec`: a record of
functions for parsing and printing. Theorems hold for every codec, and those that need laws
(printing an object and reading it back gives the same members, and so on) name them as
`Lawful`; the law about encoding covers the values the gateway encodes itself, whose numbers are
whole. Two theorems about texts that are no JSON also need that such a text has no members. Time, random identifiers, network replies and what an upstream answers are inputs of each
step.

Facts about the code that the theorems make explicit:

- However a stream is cut into reads, the usage parser drops nothing if and only if no line
  exceeds its 4 MiB cap; then client bytes and recorded usage do not depend on the cuts. Past the
  cap a later report can be lost or kept depending on the cut
  (`Relay.LandsHoweverCut`, `Relay.CutsDoNotMatter`, `Relay.LongLineCanLoseUsage`).
- An unterminated last line is glued to the injected usage frame (`Endings.LineEnds`).
- A reservation for an account without identifier and mail address would never be taken back
  (`Requests.EndUndoesReserve`). The pool never holds such an account: every row is inserted with
  a random identifier (`internal/store/pool.go:253`, `internal/store/batch.go:334`,
  `internal/store/auto_import.go:115`, `internal/store/auto_receive.go:62`).
- The watermark of an imported account can fall, and its login time can be lowered, in exactly
  one case each (`Exchange.WatermarkFallsOnlyUntimed`, `Exchange.ImportLowersLogin`).
- Between equal login times the two servers keep different credentials (`Exchange.SwapConverges`).
- Finishing a waiting card twice forgets its open uses (`CardLedger.FinishKeepsCounted`);
  `CardLedger.FinishingTwiceForgets` is a run from the empty ledger into that state.
- Usage that stands only beside an envelope, or without an envelope only in the message, the
  response or the object itself, is found by the parser and missing from the rewritten line
  (`Meaning.LostExactly`).
- Of more than 50000 logs a pruning deletes as many as it counted too many, so other connections
  that insert meanwhile can leave more than 50000 behind, and ones that delete meanwhile fewer
  (`DashboardHistory.PruneKeepsNewest`).

## Model

| member | source | states |
|---|---|---|
| `Bytes.SplitResumes` | internal/proxy/envelope.go:496-506 | splitting what was held back together with new bytes gives the lines and the rest of the whole stream |
| `Bytes.SplitLosesNothing` | internal/proxy/envelope.go:496-506 | the complete lines, each with its line feed, and the rest make up the stream byte for byte |
| `Bytes.RestHasNoLF` | internal/proxy/envelope.go:496-506 | what is held back never contains a line feed |
| `Bytes.TrimLineEndIs` | internal/proxy/envelope.go:541-548 | trimming a line end takes all carriage returns and line feeds off the end and nothing else |
| `Usage.MergedIsLastPositive` | internal/proxy/usage.go:27-52 | merging all lines leaves in every field the last positive value any line reported |
| `Usage.UsageFromFindsSome` | internal/proxy/usage.go:126-165 | an object reports usage exactly when one of the five places holds some, and what is reported is never empty |
| `Usage.TokensAre` | internal/proxy/usage.go:173-203 | each token field is read under its newer name, then its older ones; a positive detail wins over the plain field, the newer detail group over the older |
| `Usage.RecordedIsLastPositive` | internal/proxy/usage.go:20-25 | recorded usage of a stream: per field the last positive value over all lines and the unterminated tail, a missing total being input plus output |
| `Usage.MergeLinesConcat` | internal/proxy/usage.go:79-92 | merging lines in two goes is merging them in one |
| `Usage.ResultIsStable` | internal/proxy/usage.go:68-77 | asking for the result again, with the tail merged again, gives the same answer |
| `Usage.Parser.Write` | internal/proxy/usage.go:58-66 | a write is dropped exactly when the partial line is over the cap, otherwise all complete lines are consumed and the rest is kept |
| `Usage.Parser.Result` | internal/proxy/usage.go:68-77 | the result is the merged usage including the unterminated tail |
| `Stream.Rewriter.Transform` | internal/proxy/envelope.go:496-523 | emits the rewritten complete lines in order, holds back the last DONE line and the partial line, and remembers whether usage was shown |
| `Stream.Rewriter.Finish` | internal/proxy/envelope.go:532-558 | emits the tail, one usage frame if owed, then the held DONE |
| `Stream.Rewriter.TakeTail` | internal/proxy/envelope.go:536-548 | an unterminated last line is rewritten without its own ending, an unterminated DONE is appended to the held one |
| `Stream.TakeLinesConcat` | internal/proxy/envelope.go:496-523 | output and state of taking lines in two goes equal those of taking them in one |
| `Relay.CopyStream` | internal/proxy/handler.go:522-551 | for any sequence of reads the client gets the rewriting of the concatenated stream, closed with the usage the parser recorded |
| `Relay.FeedResumes` | internal/proxy/envelope.go:496-523 | transforming a and then b equals transforming a + b, in bytes sent, state and held-back rest |
| `Relay.ParsedWhole` | internal/proxy/usage.go:58-92 | as long as no write is dropped, the parser's state depends only on the concatenation of the reads |
| `Relay.LandsHoweverCut` | internal/proxy/usage.go:58-66 | no way of cutting a stream makes the parser drop a write if and only if no line that still has a successor byte is over the cap |
| `Relay.ClientSeesWhole` | internal/proxy/envelope.go:496-523 | whatever the reads, the bytes sent to the client and what the rewriter holds are those of the uncut stream |
| `Relay.CutsDoNotMatter` | internal/proxy/handler.go:522-551 | two ways of cutting one stream with short lines give the same pair of client bytes and recorded usage |
| `Relay.LongLineCanLoseUsage` | internal/proxy/usage.go:59-62 | a line over the cap followed by a usage report: cut after the long line the report is lost, cut elsewhere it is kept |
| `Shape.StreamShape` | internal/proxy/envelope.go:496-558 | newline-terminated streams become the non-DONE lines rewritten in order with their own endings, one usage frame exactly when usage is recorded and no forwarded line showed it, then the last DONE line |
| `Endings.ObjectEnds` | internal/proxy/envelope.go:532-558 | an unterminated bare object ends normalised; the usage frame follows exactly when usage is recorded and neither an earlier line nor this one shows it, then the last DONE |
| `Endings.MarkerEnds` | internal/proxy/envelope.go:536-558 | an unterminated DONE adds nothing to the forwarded lines and is appended, without its line end, to the last DONE before it |
| `Endings.LineEnds` | internal/proxy/envelope.go:536-558 | any other unterminated line ends rewritten, without its line end, and the frame, when owed, follows on the same line |
| `Shape.NormalDataLineUnchanged` | internal/proxy/envelope.go:560-590 | under every policy a data line whose payload normalises to itself comes out byte-identical |
| `Shape.NormalPayload` | internal/proxy/envelope.go:112-158 | under the keep policy a payload normalises to itself when it is no object, has no data member, or has one that neither wraps a completion nor hides usage |
| `Meaning.UnchangedExactlyNormal` | internal/proxy/envelope.go:112-125 | a data line with an object as payload comes out byte for byte if and only if the payload normalises to itself |
| `Endings.Passthrough` | internal/proxy/envelope.go:496-558 | a stream of unchanged lines, with an optional final DONE or an unchanged unterminated last line, passes byte for byte unless a usage frame is owed |
| `Shape.TrimIsStable` | internal/proxy/envelope.go:560-590 | trimming white space twice is trimming it once |
| `Meaning.UnwrapMeans` | internal/proxy/envelope.go:10-46 | taking envelopes off the bytes of an object yields the bytes of the object inside, at most the given number of times |
| `Meaning.LiftMeans` | internal/proxy/envelope.go:118-158 | the bytes with usage lifted decode to the object with its inner usage at the top, unless the top already reports some |
| `Meaning.PolicyMeans` | internal/proxy/envelope.go:77-110 | the bytes after the provider policy decode to the object with the provider kept, removed or set |
| `Meaning.PolicyTouchesOnlyProvider` | internal/proxy/envelope.go:77-110 | under every policy all other members of the object are preserved |
| `Meaning.NormalizeMeans` | internal/proxy/envelope.go:112-125 | normalising bytes refines the three operations on the decoded object, and the usage test reads off the result |
| `Meaning.HeldExactlyDone` | internal/proxy/envelope.go:560-598 | a line is held back exactly when it is a DONE marker, bare or behind one or two data prefixes |
| `Meaning.LineMeans` | internal/proxy/envelope.go:560-590 | a line with an object as payload is forwarded, stays a data line if it was one, carries the normalised object and shows usage exactly when that has some |
| `Meaning.PlainLineUnchanged` | internal/proxy/envelope.go:560-590 | a line that carries no object and is no DONE is forwarded as it is and shows no usage |
| `Meaning.ShownExactly` | internal/proxy/envelope.go:112-158 | under every policy a rewritten line shows usage if and only if the object freed of its envelopes reports some at its top or in its data member |
| `Meaning.LostExactly` | internal/proxy/usage.go:126-165 | where the parser finds usage the rewritten line does not show: without an envelope exactly if it is only in the message, the response or the object itself; with one exactly if neither the object inside nor its data member has any |
| `Meaning.FrameReportsUsage` | internal/proxy/envelope.go:472-494 | the injected frame is one data line and a blank line from which the recorded input, output and total tokens are read back, under every policy |
| `KeyedFold.KeysAreIndependent` | internal/proxy/envelope.go:225-265 | an accumulator per index is the fold of that index's own entries |
| `KeyedFold.SwapDisjoint` | internal/proxy/envelope.go:225-265 | neighbouring groups of entries with disjoint indices may be swapped |
| `KeyedFold.SplitEntry` | internal/proxy/envelope.go:225-265 | an entry may be replaced by two that together add the same |
| `Ordered.SortedKeys` | internal/proxy/envelope.go:277-281 | iterating a map's keys sorted lists each key once in strictly ascending order |
| `Assembly.ChoicesAreIndependent` | internal/proxy/envelope.go:225-265 | each choice is built from its own deltas only, and exists exactly if it has some |
| `Assembly.SwapDisjointChunks` | internal/proxy/envelope.go:187-317 | swapping adjacent payloads with disjoint indices leaves all choices unchanged |
| `Assembly.FoldedTexts` | internal/proxy/envelope.go:256-258 | content and reasoning of a choice are the in-order concatenations of its deltas |
| `Assembly.FoldedParts` | internal/proxy/envelope.go:262-263 | tool calls and reasoning details of a choice are the folds of its own items in order |
| `Assembly.ToolArguments` | internal/proxy/envelope.go:413-445 | the arguments of a tool call are the concatenation of its argument pieces |
| `Assembly.ArgumentsOfTool` | internal/proxy/envelope.go:413-445 | the same per tool index, over all deltas of a choice |
| `Assembly.SplitContentDelta` | internal/proxy/envelope.go:187-317 | cutting the content of any entry of any chunk in two, the second piece in a chunk right after, changes no choice, provided no later entry of the chunk belongs to the same choice |
| `Splitting.SplitContentKeepsAnswer` | internal/proxy/envelope.go:187-317 | nor does it change the assembled answer, whatever header the chunks carry, provided the second one repeats part of the first one's header and the chunk is no whole completion |
| `Assembler.MergeToolCalls` | internal/proxy/envelope.go:413-445 | the loop adds each item to the call with its index, exactly as the fold does |
| `Assembler.MergeReasoningDetails` | internal/proxy/envelope.go:367-391 | the loop adds each item to the detail with its index, exactly as the fold does |
| `Assembler.MergeEntry` | internal/proxy/envelope.go:238-263 | one choice entry adds its finish reason, role, texts, details and calls to its choice |
| `Assembler.MergeChunk` | internal/proxy/envelope.go:225-265 | one chunk adds each of its entries to the choice with that index |
| `Assembler.RenderChoices` | internal/proxy/envelope.go:277-310 | choices come out in ascending order of index |
| `Assembler.GatherUntilWhole` | internal/proxy/envelope.go:193-224 | payloads are gathered up to the first one that is a whole completion |
| `Assembler.Assemble` | internal/proxy/envelope.go:187-317 | the answer is the whole completion with usage filled in, or the assembled choices inside the gathered metadata |
| `Assembler.AnswerChoices` | internal/proxy/envelope.go:267-316 | without a whole completion the answer lists exactly the choices of the chunks, strictly ascending by index, each rendered from its own deltas |
| `Contents.AnswerSays` | internal/proxy/envelope.go:272-316 | each choice of the answer says its index, the content, reasoning, role, refusal and finish reasons of its own deltas, its tool calls and reasoning details each made of their own items, ascending by index, and nothing else |
| `Contents.AnswerHeader` | internal/proxy/envelope.go:207-276 | around the choices stand the identifier, time, model, fingerprint and tier the stream last gave, its last usage or else the recorded one, and nothing else |
| `Contents.WholeAnswerSays` | internal/proxy/envelope.go:199-206 | with a whole completion in the stream the first one is the answer, filled in with recorded usage exactly if it says none |
| `Assembler.SplitAll` | internal/proxy/envelope.go:321 | the body is split at line feeds, the unterminated rest being the last line |
| `Assembler.DecodeAll` | internal/proxy/envelope.go:319-335 | one decoded object, free of envelopes, for each line that carries one, in order |
| `Decoding.DecodeMeans` | internal/proxy/envelope.go:319-335 | a stream decodes to the objects its lines carry, in order, each free of at most three envelopes; nothing else counts |
| `Decoding.LineReports` | internal/proxy/usage.go:94-124 | what a line reports to the usage parser is what the object it carries reports |
| `Assembly.ObjectsAround` | internal/proxy/envelope.go:226-230 | exactly the objects among the items of a list count, in order |
| `Assembler.CopyWhole` | internal/proxy/handler.go:496-521 | a body that looks like a stream is assembled with the usage its lines report, any other is normalised as it is |
| `Decoding.LooksLikeStreamExactly` | internal/proxy/envelope.go:160-165 | an answer counts as a stream exactly when one of its lines, after the white space it begins with, is a data line |
| `Balancer.ClampRpm` | internal/proxy/pick.go:142-150 | the limit is between 1 and 1000, and the setting itself when that lies in between |
| `Balancer.MaxAttempts` | internal/proxy/pick.go:503-511 | between 1 and 33 attempts, one more than the retries when these are in range |
| `Balancer.Balancer.Rank` | internal/proxy/pick.go:403-425 | returns the eligible accounts in order of in-flight count, last pick and mail address, stable, with the side effects of looking at each |
| `Balancer.Balancer.PrunePicks` | internal/proxy/pick.go:152-170 | drops old picks from the front, deleting an emptied list |
| `Balancer.Balancer.Cooling` | internal/proxy/pick.go:110-120 | says whether the account rests, and forgets an expired rest |
| `Balancer.Balancer.RpmFull` | internal/proxy/pick.go:172-179 | full exactly when the pruned list has reached the limit |
| `Balancer.Balancer.ReserveWithRpm` | internal/proxy/pick.go:126-140 | takes the first of the ranking, counts it in flight, stamps it and records the pick, or reports nobody |
| `Balancer.Balancer.EndRequest` | internal/proxy/pick.go:63-72 | takes one in-flight request off, never below zero |
| `Balancer.Balancer.HoldAccount` | internal/proxy/pick.go:74-81 | counts one more running refresh |
| `Balancer.Balancer.UnholdAccount` | internal/proxy/pick.go:83-95 | counts one refresh less and forgets the account at zero |
| `Balancer.Balancer.Cooldown` | internal/proxy/pick.go:101-108 | sets the end of a rest, for named accounts and positive durations only |
| `Balancer.LookedAllSameToday` | internal/proxy/pick.go:403-410 | looking at accounts changes nothing that any check at that time can see |
| `Balancer.EligibleOfIsFilter` | internal/proxy/pick.go:403-411 | exactly the eligible accounts are ranked |
| `Balancer.SortedSorts` | internal/proxy/pick.go:412-424 | the ranking is in order |
| `Balancer.SortedIsPermutation` | internal/proxy/pick.go:412-424 | the ranking loses and invents no account |
| `Balancer.SortedIsStable` | internal/proxy/pick.go:412-424 | accounts of the same rank stay in the order of the list |
| `Balancer.ChoiceIsMinimal` | internal/proxy/pick.go:126-140 | the account chosen is eligible and no eligible one precedes it, in particular none has fewer requests in flight; nobody is chosen only if nobody is eligible |
| `Balancer.ChoiceIsLeastUsed` | internal/proxy/pick.go:412-424 | nobody eligible has fewer requests in flight than the account chosen; among those with as many nobody was picked longer ago; among those nobody has a smaller mail address |
| `RateLimit.PruneIsFilter` | internal/proxy/pick.go:152-170 | on ascending times, dropping from the front removes exactly what has left the window |
| `RateLimit.PrunedIsWindow` | internal/proxy/pick.go:152-184 | the pruned list equals the in-window part of everything ever picked, now and at any later moment |
| `RateLimit.LookedAllRemembers` | internal/proxy/pick.go:403-411 | a ranking with a current or older clock forgets nothing that still matters |
| `RateLimit.PickedRemembers` | internal/proxy/pick.go:181-184 | a recorded pick joins the remembered window |
| `RateLimit.EveryWindowIsLimited` | internal/proxy/pick.go:177-184 | if every pick respected its limit over its own trailing minute, every minute placed anywhere respects the largest limit |
| `Requests.StepKeepsCounted` | internal/proxy/pick.go:63-72 | every step keeps in-flight counters equal to open reservations, and picks equal to open plus ended ones |
| `Requests.StepKeepsRefreshes` | internal/proxy/handler.go:87-96 | every step keeps refresh counters equal to the refreshes still running |
| `Requests.StepKeepsOrderly` | internal/proxy/handler.go:147-162 | every step keeps the accounts a request tried distinct and at most 33 |
| `Requests.StepKeepsRate` | internal/proxy/pick.go:126-184 | every step keeps the limiter's memory exact and every pick within its limit |
| `Requests.AlwaysSafe` | internal/proxy/handler.go:147-244 | all of these over every interleaving of requests, refreshes, rankings and rests |
| `Requests.DrainedMeansIdle` | internal/proxy/pick.go:63-72 | when no request holds a reservation every counter is zero and every pick was ended exactly once |
| `Requests.RateLimitHolds` | internal/proxy/pick.go:126-184 | over every run under a limit, no account is picked more often than the clamped limit in any window (t - 60 s, t] |
| `Availability.RestingIsLeftAlone` | internal/proxy/pick.go:101-120 | once an account rests no later pick of it falls before the end of the rest, over any run in which no other rest is set for it |
| `Availability.PickedServes` | internal/proxy/pick.go:341-353 | in every reachable state an attempt picks nobody, or an untried account of the list that has a key, is not exhausted, expired or on hold, does not rest and has no refresh running |
| `Availability.NobodyIsExplained` | internal/proxy/pick.go:403-411 | an attempt that finds nobody has a reason for every named account: tried, resting since some step of the run, being refreshed, unable to serve, or its minute full |
| `Requests.EndUndoesReserve` | internal/proxy/pick.go:63-72 | ending takes back what reserving counted if and only if the account has a name |
| `Retry.Settle` | internal/proxy/handler.go:170-243 | transport error, rejection and answer each end the reservation on their own way out, once, and say whether the loop stops or goes on |
| `Retry.Attempt` | internal/proxy/handler.go:152-243 | one turn: reserve an untried account, log that, and settle its reply; nobody is logged when nobody is found |
| `Retry.ServeRequest` | internal/proxy/handler.go:147-258 | the loop tries account after account until a reply answers, gives up, attempts run out or nobody is left; on every exit the log of reserves and ends has grown by one pair for each account tried |
| `Retry.EachEndedOnce` | internal/proxy/handler.go:147-258 | however the loop stops, every account it tried was reserved exactly once and ended exactly once, and no other account was touched |
| `Retry.ServeReplays` | internal/proxy/pick.go:63-72 | the in-flight counter after the loop is the one that replaying the log of reserves and ends gives |
| `Retry.ServeEndsReservations` | internal/proxy/handler.go:147-258 | so every named account's in-flight count is what it was, whatever the upstream replies |
| `Retry.ServeTriesDistinct` | internal/proxy/handler.go:147-162 | no account is tried twice, never more than 33 |
| `Retry.ServeIsExplained` | internal/proxy/handler.go:147-258 | the response is the last reply if that one asks to answer, else the last error, else unavailable; every earlier reply asked for another try |
| `Retry.TriesAgainExactly` | internal/proxy/pick.go:457-464 | exactly a transport error that is no timeout, and a rejection with one of ten statuses that is neither permanent nor a rate-limit page, leads to another try |
| `Retry.StopsWith` | internal/proxy/handler.go:170-243 | any other reply is passed on, except a timeout and a rate-limit page, of which a status is kept |
| `Retry.GoesOnWith` | internal/proxy/handler.go:170-187 | a reply that leads to another try leaves its status as the last error |
| `Retry.RejectionRests` | internal/proxy/handler.go:200-215 | a rejection that leads to another try, and nothing else, lets the account rest from then on |
| `Retry.RejectionHolds` | internal/proxy/handler.go:211-213 | nothing else holds the account while its quota is looked up again |
| `Retry.StopsOnlyWhenDry` | internal/proxy/handler.go:151-155 | stopping early while another try was wanted means no untried account is eligible |
| `Fairness.RotaIsFair` | internal/proxy/pick.go:412-424 | when the longest unused is always taken and becomes the youngest, no round takes anyone twice |
| `Fairness.OnceMoves` | internal/proxy/pick.go:126-140 | one request at idle eligible accounts takes the longest unused, makes it the youngest and leaves all idle |
| `Fairness.RoundRobin` | internal/proxy/pick.go:126-140 | N accounts that stay eligible, requests one after another at increasing times: any N consecutive requests get N different accounts |
| `Scheduler.LoginLimit` | auto/internal/job/manager.go:238-246 | the limit is at least 1 and is the setting, the configuration or 1 |
| `Scheduler.Manager.AccountBusy` | auto/internal/job/manager.go:147-157 | busy exactly when the account runs or has a queued entry |
| `Scheduler.Manager.Enqueue` | auto/internal/job/manager.go:159-208 | refuses an unknown account, a cookie job without cookie, a paid account and a busy one, in this order, otherwise appends a queued job |
| `Scheduler.Manager.Pump` | auto/internal/job/manager.go:255-301 | starts what the scan-and-splice loop starts, unless held, and terminates |
| `Scheduler.Manager.Finish` | auto/internal/job/manager.go:303-314 | frees the account and the slot of the job's class |
| `Scheduler.PumpStartsClassPrefix` | auto/internal/job/manager.go:255-301 | of each class exactly the first jobs in queue order start, as many as there is room for, whatever the other class does |
| `Scheduler.PumpLeavesNothingStartable` | auto/internal/job/manager.go:255-301 | after a pump no queued job could start |
| `Scheduler.PumpDropsNothing` | auto/internal/job/manager.go:266-271 | in a consistent state the branch for a vanished job is never taken |
| `Scheduler.StepKeepsSafe` | auto/internal/job/manager.go:147-314 | every critical section keeps at most one job per account, a duplicate-free queue disjoint from running jobs, and exact counters |
| `Scheduler.StepKeepsLimits` | auto/internal/job/manager.go:255-301 | neither class ever exceeds its limit |
| `Scheduler.StepKeepsFifo` | auto/internal/job/manager.go:190-204 | jobs of one class start in the order they were accepted |
| `Scheduler.StepKeepsWakeup` | auto/internal/job/manager.go:303-314 | whenever a queued job could start, some pump call is still to come |
| `Scheduler.AlwaysSafe` | auto/internal/job/manager.go:147-314 | safety, limits and order in every reachable state |
| `Scheduler.NoLostWakeup` | auto/internal/job/manager.go:255-314 | with constant limits no wakeup is lost in any interleaving |
| `Scheduler.QuietMeansDone` | auto/internal/job/manager.go:255-314 | no worker running and no pump pending means the queue is empty and everything accepted was started |
| `JobKinds.AlwaysKept` | auto/internal/job/manager.go:175-193 | in every reachable state the job table holds for each accepted job the account and kind it was asked for with, and nothing else |
| `JobKinds.AlwaysByKind` | auto/internal/job/manager.go:147-314 | by the kind each job was asked for with: counters are exact and within the limits, each account has at most one open job, and of each class the jobs asked for are those started, then those waiting, in order |
| `JobKinds.PumpByKind` | auto/internal/job/manager.go:255-301 | a pump starts of each class asked for exactly the first waiting jobs, as many as the class has room for |
| `JobKinds.QuietByKind` | auto/internal/job/manager.go:255-314 | in a quiet scheduler every job asked for was started, each class in the order it was asked for |
| `JobKinds.BusyExactly` | auto/internal/job/manager.go:147-157 | a job is refused as in the way exactly when one that waits or runs was asked for the same account |
| `JobLog.EncodeIsRunLength` | auto/internal/job/manager.go:502-514 | no two neighbouring entries agree, numbers are 1..n without gaps, repeats sum to the number of calls, and expanding gives back the calls |
| `JobLog.AppendExpands` | auto/internal/job/manager.go:502-514 | one call adds itself at the end of the expansion |
| `JobLog.NewestIsLast` | auto/internal/job/manager.go:502-514 | the newest entry shows key and time of the newest call |
| `JobLog.WindowAppend` | auto/internal/job/manager.go:515-518 | the kept window is maintained from itself |
| `JobLog.WindowNumbers` | auto/internal/job/manager.go:480-527 | at most 300 entries, numbered without gaps, neighbours different |
| `JobLog.RunIsRunLength` | auto/internal/job/manager.go:462-514 | over any run of a job, however status and stage change between the lines, the repeat counts add up to the number of lines that say something |
| `JobLog.ClosedKeepsStage` | auto/internal/job/manager.go:488-490 | no log line moves a finished job to another stage: all its later entries carry the one it was closed in |
| `JobLog.LineCarriesStage` | auto/internal/job/manager.go:488-500 | a line is logged under the stage it names while the job is open, else under the stage the job is in |
| `JobLog.StatusSetsStage` | auto/internal/job/manager.go:462-478 | only the first running and success move the stage |
| `JobLog.Log.SetStage` | auto/internal/job/progress.go:41-48 | a named stage is taken over, an empty one ignored |
| `JobLog.Log.SetStatus` | auto/internal/job/manager.go:462-478 | the first running moves to the browser stage, success to the last one |
| `JobLog.Log.Logf` | auto/internal/job/manager.go:480-518 | a line that says something is logged under the stage it moves the job to, unless the job is finished; the stored log stays the last entries of the encoding of all such lines |
| `JobLog.Log.Trim` | auto/internal/job/manager.go:515-518 | the overlapping copy keeps exactly the newest entries |
| `Metrics.TotalUpdate` | internal/store/dashboard_history.go:110-116 | rewriting one log is subtracting its old contribution and adding its new one |
| `Metrics.NoRequestsNoMetrics` | internal/store/dashboard.go:61 | a total without requests has every metric zero |
| `Columns.TotalMeasures` | internal/store/dashboard_history.go:18-33 | a total is, column by column, the number of chosen logs, of completed, failed and unfinished ones, the sums of their token fields, and the sums and numbers of their first-token times and speeds |
| `Sums.AddInSeq` | internal/store/dashboard.go:86-88 | adding to one point adds to the sum of a timeline |
| `Sums.AddInMap` | internal/store/dashboard.go:104-123 | adding to one entry, new or old, adds to the sum of a map |
| `DashboardHistory.Tables.Upgrade` | internal/store/dashboard_history.go:64-73 | the first start groups the stored logs into exact rows |
| `DashboardHistory.Tables.AddTo` | internal/store/dashboard_history.go:126-136 | one upsert adds the delta to its row, creating it if missing |
| `DashboardHistory.Tables.InsertRequestLog` | internal/store/logs.go:40-64 | stores the log with defaults filled in and counts it once |
| `DashboardHistory.Tables.UpdateRequestLog` | internal/store/logs.go:66-88 | rewrites a stored log, keeping its creation time, and moves its contribution |
| `DashboardHistory.Tables.PruneRequestLogs` | internal/store/logs.go:222-239 | three statements with any other statements between them: stale logs go, the rest is counted, and the oldest of what is then there go, as many as were counted too many; every aggregate stays exact |
| `DashboardHistory.Tables.ClearRequestLogs` | internal/store/logs.go:204-220 | deletes batch after batch with any other statements between two of them, terminates if those do, and finds the table empty |
| `DashboardHistory.ClearedKeepsExact` | internal/store/logs.go:204-220 | whatever is written between two batches every aggregate stays exact; if nothing is, none changes |
| `DashboardHistory.StepKeepsExact` | internal/store/dashboard_history.go:110-136 | each insert, update or deletion keeps every row equal to the sum over the full history |
| `DashboardHistory.AlwaysExact` | internal/store/dashboard_history.go:18-33 | over any run every (hour, model, channel) row equals the sum of all logs ever inserted, each at its last written value |
| `Written.HistoryIsWritten` | internal/store/logs.go:40-88 | the history is what the statements wrote: each inserted log at the values of its last update before a deletion, its creation time kept |
| `Written.NormalFillsIn` | internal/store/logs.go:40-46 | on insertion a missing time becomes now, a missing status processing; nothing else changes |
| `Written.HourOfIs` | internal/store/dashboard_history.go:133 | a log's hour is the last full hour before it |
| `Written.RowsAreColumns` | internal/store/dashboard_history.go:18-33 | in every reachable state each row is, column by column, the sum over the logs of its hour, model and channel that the statements wrote |
| `DashboardHistory.RetryCountsOnce` | internal/store/dashboard_history.go:15-17 | writing the same values again changes no row |
| `DashboardHistory.EmptyRowsAreZero` | internal/store/dashboard.go:61 | a row with no requests is zero in every metric |
| `DashboardHistory.RowsAreCoherent` | internal/store/dashboard_history.go:18-33 | in every row outcomes never exceed requests, samples never exceed successes, and sums without samples are zero |
| `DashboardHistory.PruneDropsStale` | internal/store/logs.go:222-229 | however others write meanwhile, a log kept is of the last fourteen days or came after the pruning had begun |
| `DashboardHistory.PruneKeepsNewest` | internal/store/logs.go:230-239 | up to 50000 logs all stay; of more, every log kept is newer than every one dropped, and unless others delete too, 50000 stay and at most those and the ones that came after the count |
| `DashboardReader.DashboardBounds` | internal/store/dashboard.go:15-25 | exactly four ranges exist; each ends with the bucket under way and spans one day or its number of days |
| `DashboardReader.PointIndexIsValid` | internal/store/dashboard.go:15-25 | for every range and moment each row since the start falls into the bucket that holds its hour; the range guard never fires |
| `DashboardReader.ActivityIndexIsValid` | internal/store/dashboard.go:75-78 | each selected row has a day in the activity calendar |
| `DashboardReader.ActivityCoversRange` | internal/store/dashboard.go:54-61 | the query reaches back at least as far as every range |
| `DashboardReader.Select` | internal/store/dashboard.go:61 | the query returns each row in reach with requests exactly once |
| `DashboardReader.Accumulate` | internal/store/dashboard.go:66-130 | the loop adds each row to its point, the summary, its model and its channel |
| `DashboardReader.Dashboard` | internal/store/dashboard.go:27-130 | unknown ranges fail, all others answer with the tallies of the selected rows |
| `DashboardReader.TotalsAgree` | internal/store/dashboard.go:81-129 | the sums over the timeline, over the channels and over the models equal the summary in every metric |
| `DashboardAnswer.AnswerIsHistory` | internal/store/dashboard.go:61-129 | summary, points, channels and models are sums over the full history of logs in their span |
| `DashboardAnswer.ListedNames` | internal/store/dashboard.go:104-123 | the models listed are the known ones and those with a row in the range, the channels those with one |
| `Written.AnswerIsWritten` | internal/store/dashboard.go:61-129 | summary, points, channels and models are, column by column, sums over the logs of their span, channel and model that the statements wrote |
| `DashboardAnswer.ActivityIsHistory` | internal/store/dashboard.go:75-78 | each day of the calendar counts that day's requests |
| `Written.ActivityIsWritten` | internal/store/dashboard.go:75-78 | each day of the calendar counts the logs written for that day |
| `Transfer.ReadAutoResults` | internal/api/auto_transfer.go:52-96 | the page loop computes what the page-by-page reading says, against any server, and terminates |
| `Transfer.AdmitPage` | internal/api/auto_transfer.go:79-88 | items are taken in order until one is foreign, nameless or repeated |
| `Transfer.ListResults` | auto/internal/api/results.go:34-53 | filters the eligible accounts and returns the slice of the page asked for |
| `Transfer.EligibleSnoc` | auto/internal/api/results.go:34-39 | the accounts listed are exactly those that are paid for and have a key and a cookie, in order |
| `Transfer.SliceIs` | auto/internal/api/results.go:48-53 | a page holds the accounts at its own positions of the list |
| `Transfer.SlicePage` | auto/internal/api/results.go:48-52 | the guard against large page numbers only skips pages that are empty anyway |
| `Transfer.AcceptedIsSound` | internal/api/auto_transfer.go:52-96 | whatever the server answers, an accepted result has exactly the announced number of accounts, is the items of at most 1000 pages in order, with distinct non-empty identifiers of the right batch |
| `Transfer.SteadyTransfer` | internal/api/auto_transfer.go:52-96 | against an unchanged list the transfer succeeds if and only if there are at most 100000 accounts with distinct non-empty identifiers of the batch, and then rebuilds the list in order |
| `Credentials.Tables.ImportAutoAccount` | internal/store/auto_import.go:38-168 | skips, advances the watermark, or creates or merges the account and remembers the result |
| `Credentials.Tables.ReceiveAutoCookieAccount` | internal/store/auto_receive.go:16-81 | refuses, keeps the stored account, or takes over the uploaded one |
| `Credentials.Tables.SyncAutoAccountCredentials` | internal/store/auto_import.go:194-252 | a linked account takes over credentials of a strictly later login, nothing else changes |
| `Credentials.Tables.LinkAutoAccount` | internal/store/auto_import.go:172-181 | records a link unless a part of it is missing |
| `Exchange.ImportKeepsIndexed` | internal/store/auto_import.go:89-131 | identifiers and mail addresses stay unique |
| `Exchange.ReceiveKeepsIndexed` | internal/store/auto_receive.go:31-76 | the same for uploads |
| `Exchange.ImportTouchesOneAccount` | internal/store/auto_import.go:89-141 | an import writes at most the account with the result's mail address, keeps its identity, and loses no field the result leaves blank |
| `Exchange.ImportDelivers` | internal/store/auto_import.go:88-168 | an accepted result leads through mark and link to a ready account with its address, credentials and login time |
| `Exchange.ImportBringsFields` | internal/store/auto_import.go:89-141 | an accepted result brings every field it has to a known account and leaves alone what it has not; a new account is the result itself |
| `Exchange.ArrivingMeans` | internal/store/auto_import.go:39-49 | mail address in lower case, a cookie made from the list when there is none, no proxy, the canonical provider; all else as sent |
| `Exchange.ImportableExactly` | internal/store/auto_import.go:44-46 | a result takes part exactly when it names its source and itself, was paid for, and has a mail address, a key and a cookie |
| `Exchange.SamePrintExactly` | internal/store/auto_import.go:50-55 | two results have the same fingerprint exactly when they agree in every field an import can bring |
| `Exchange.ReceiveRenews` | internal/store/auto_receive.go:31-70 | an upload for a known account keeps it, or makes it what taking over the upload yields |
| `Exchange.ReceiveCreates` | internal/store/auto_receive.go:61-73 | an upload for an unknown account creates it as it was sent |
| `Exchange.RenewedFields` | internal/store/auto_receive.go:40-69 | the login is the one sent, any other field is when it has a value |
| `Exchange.ReceiveRefuses` | internal/store/auto_receive.go:17-21 | an upload is refused exactly when it lacks a mail address, a cookie, a key or a payment |
| `Exchange.SyncTouchesCredentials` | internal/store/auto_import.go:219-225 | a synchronisation writes at most the linked account, and of it only the credentials |
| `Exchange.SyncBringsFields` | internal/store/auto_import.go:219-225 | it takes over the login, and workspace and user when the other side knows them; every other field stays |
| `Exchange.SyncOnlyWhenLater` | internal/store/auto_import.go:194-218 | it changes something only for a linked account with the same mail address and a strictly earlier login |
| `Exchange.RedeliveryChangesNothing` | internal/store/auto_import.go:64-87 | delivering a result again changes nothing, even after local edits |
| `Exchange.WatermarkFallsOnlyUntimed` | internal/store/auto_import.go:72-87 | the watermark falls if and only if a changed result without update time arrives below it |
| `Exchange.OlderChangesNothing` | internal/store/auto_import.go:72-87 | over any run of timed results, one older than any delivered before it changes nothing |
| `Exchange.ImportLowersLogin` | internal/store/auto_import.go:136 | an import lowers a local login time if and only if it is accepted for that account and carries an earlier one |
| `Exchange.ReceiveLowersLogin` | internal/store/auto_receive.go:31-39 | an upload lowers a login time if and only if it is accepted with an earlier one for an account that has no cookie to lose |
| `Exchange.SyncNeverLowersLogin` | internal/store/auto_import.go:216-218 | a synchronisation never lowers a login time |
| `Exchange.LoginNeverDecreases` | internal/store/auto_receive.go:31-69 | over any interleaving of uploads, synchronisations with stale snapshots and new logins, an account with a cookie keeps one and its login time never decreases |
| `Exchange.SwapConverges` | internal/store/auto_import.go:194-225 | an upload and the synchronisation back leave both sides with the credentials of the later login; they agree if and only if the times differ or they agreed before |
| `Exchange.SwapIntroduces` | internal/api/auto_transfer.go:149-232 | an account unknown to the other side is created there with the same credentials and linked, the local one keeps its own |
| `Document.ParseDocumentTable` | internal/gomodel/document.go:134-202 | unrelated, invalid, or the models of the table |
| `Document.ReadBody` | internal/gomodel/document.go:165-201 | the row loop keeps the first of equal rows and stops at an invalid or conflicting one |
| `Document.RowsSpellMap` | internal/gomodel/document.go:165-201 | rows are read if and only if each is valid and no identifier has two names, and the result is exactly the map they spell out |
| `Document.TableIsDistinct` | internal/gomodel/document.go:172-201 | a table read lists each identifier once, with a name, and is not empty |
| `Document.TableMeans` | internal/gomodel/document.go:158-201 | a table with a model column and an ID column is read exactly when every row has a name of at most 256 bytes and a cell that is one model ID and nothing else, and no ID has two names; it lists what the rows spell out |
| `Document.OtherTable` | internal/gomodel/document.go:147-164 | any other table is unrelated |
| `Document.SameDocumentModels` | internal/gomodel/document.go:271-285 | the comparison of lengths and one-sided lookups |
| `Document.SameModelsIsEquality` | internal/gomodel/document.go:271-285 | on lists without repetitions it decides equality of the maps from identifier to name |
| `Sections.ParseDocument` | internal/gomodel/document.go:56-100 | the scan with its three flags |
| `Sections.OpenIsSection` | internal/gomodel/document.go:59-74 | an element is inside a Models section exactly if no heading in between ends it |
| `Sections.ScanIsFaithful` | internal/gomodel/document.go:56-93 | the flags mean what they say after every prefix of the page, and the scan fails exactly when the prefix is bad |
| `Sections.DocumentIsAccepted` | internal/gomodel/document.go:56-100 | a page is accepted if and only if it has a Models heading, every section such a heading opens has a model table, no table in one is spoilt, and all spell the same map |
| `Sections.AnswerIsFirst` | internal/gomodel/document.go:82-100 | the answer of an accepted page is its first model table |
| `CardLedger.MaxPays` | auto/internal/amzkeys/pays.go:10-22 | as many payments as the amount covers, at least one, at most three |
| `CardLedger.RemainingPays` | auto/internal/amzkeys/pays.go:24-30 | zero exactly when the payments are used up, otherwise the difference |
| `CardLedger.Store.TryReserveReady` | auto/internal/api/amzkeys.go:174-196 | counts a use of the current card, else of the waiting one, else none |
| `CardLedger.Store.DiscardCurrent` | auto/internal/api/amzkeys.go:198-209 | the waiting card takes the place of the current one |
| `CardLedger.Store.RecycleCard` | auto/internal/api/amzkeys.go:211-224 | used-up cards nobody uses make room |
| `CardLedger.Store.ReleaseCard` | auto/internal/api/amzkeys.go:461-493 | the first card with the key gives one use back, and its payment too if it neither succeeded nor was refused |
| `CardLedger.Store.BeginCreate` | auto/internal/api/amzkeys.go:278-327 | waits for a running creation, needs none, or starts one in the free slot |
| `CardLedger.Store.FinishCreate` | auto/internal/api/amzkeys.go:383-411 | installs the card, keeping counters only for the current one |
| `CardLedger.Store.FailCreate` | auto/internal/api/amzkeys.go:346-363 | removes the failed creation from its slot |
| `CardLedger.CheckoutUses` | auto/internal/api/amzkeys.go:174-196 | a checkout uses the current card while it has payments left, then the waiting one, else none, and counts it once more |
| `CardLedger.DiscardKeepsWaiting` | auto/internal/api/amzkeys.go:198-209 | the waiting card survives a discard unchanged |
| `CardLedger.RecycleDropsUsedUp` | auto/internal/api/amzkeys.go:211-224 | a card leaves in recycling exactly when it has no payments left and nobody uses it; the waiting card moves up |
| `CardLedger.ReturnedGivesBack` | auto/internal/api/amzkeys.go:461-493 | a use that ends is given back, its payment too unless it succeeded or was refused |
| `CardLedger.ReleaseGoesTo` | auto/internal/api/amzkeys.go:461-493 | a release goes to the current card if the key fits it, else to the waiting one, else nowhere |
| `CardLedger.BeginKeepsCards` | auto/internal/api/amzkeys.go:278-310 | beginning a card never drops one that is good or in use, and changes nothing while another is good or in the making |
| `CardLedger.BeginStartsTask` | auto/internal/api/amzkeys.go:278-327 | otherwise a new task goes into the free slot |
| `CardLedger.FailKeepsCards` | auto/internal/api/amzkeys.go:346-363 | a failed creation takes away only the slot waiting for its own task, never a ready card |
| `CardLedger.ReleaseKeepsSound` | auto/internal/api/amzkeys.go:461-493 | whatever key is released, counters stay in range |
| `CardLedger.FinishKeepsSound` | auto/internal/api/amzkeys.go:383-411 | finishing keeps them in range unless the same card reports less than was already paid |
| `CardLedger.FinishKeepsCounted` | auto/internal/api/amzkeys.go:389-411 | finishing keeps open uses counted if and only if it does not install fresh counters for a number in use |
| `CardLedger.FinishingTwiceForgets` | auto/internal/api/amzkeys.go:389-411 | a run from the empty ledger that loses a count: a card is used up, the waiting one is put into use and finished once more |
| `CardLedger.GiveKeepsCounted` | auto/internal/api/amzkeys.go:461-493 | a release reaches the card it belongs to |
| `CardLedger.StepKeepsSound` | auto/internal/api/amzkeys.go:174-411 | while a card number keeps its amount, every step, a release of any key included, keeps 0 <= open uses <= payments <= maximum on ready cards and zero counts elsewhere |
| `CardLedger.AlwaysSound` | auto/internal/api/amzkeys.go:174-493 | through every interleaving of checkouts, releases of any key, discards and creations counters stay in range, provided only that a card number keeps its amount |
| `CardLedger.AlwaysCounted` | auto/internal/api/amzkeys.go:174-493 | each card counts exactly its open uses, provided moreover that releases name open uses and a newly installed number differs in its last four digits from every number known |
| `CardLedger.NoOpenUses` | auto/internal/api/amzkeys.go:461-493 | with every use released nothing is under way |

## Left out

- Browser automation, login flows, payment pages, the Python worker, archive download, TLS and SOCKS relays, the web interface and SQL schema migration.
- Byte-level JSON: decoding and printing are functions of the `Codec` record; theorems about the meaning of rewritten objects assume that printing and reading back agree.
- Integers: token counts and times are unbounded; a number outside the machine's range is not cut off as the original's conversions would.
- Floating point: throughput sums, card amounts and the dashboard's sums are real numbers; rounding, percentages, averages and cost display are not modelled.
- Billing rows of the dashboard, the order of models and channels and the cut to ten models.
- Accumulators of streamed choices are values in a map; that the original keeps pointers to them is not captured.
- `sort.SliceStable`, `sort.Ints` and SQL queries are modelled by what they return.
- The model name of a request, log text formatting and the delivery of events to job subscribers.
- Classification of quota messages, HTML detection and retry delays: each upstream reply carries the outcome of these checks.
- A panic inside a request handler: the original would then not end its reservation.
- Retry.Attempt: the transport retry of one attempt and the copying of the answer lie between reserving and ending; `Requests` covers what other requests do meanwhile.
- Scheduler.Manager.Enqueue: job identifiers are random in the original; the model takes fresh ones as given. The account read before queueing is an input.
- DashboardHistory.Tables.InsertRequestLog: the database's choice of identifier is an input; it may be any that is not in use, so also one used before the log was cleared.
- Import batches, cookie-job rows and the reset of usage flags that accompany an import; an account deleted locally takes its import mark along, so theorems about runs of imports assume no deletion.
- The SHA-256 fingerprint of a result stands for the tuple of values it hashes.
- Mail addresses are compared by rules given as functions; Unicode case folding is not modelled.
- The depth check of table tags before a document is parsed, tree walking and attribute handling.
- The card ledger's warm-up decisions, stored error messages and trimming of stored fields.
