# Ocel: verified protocols and algorithms

Ocel deploys applications and runs their background work. Most of its code talks to clouds, but under that lie several
protocols in which many processes change one store entry by compare-and-swap, and some dense algorithms. This project
models those in Dafny and proves what they promise over every input, every run and every interleaving.

    dafny verify dfyconfig.toml

## How protocols are modelled

Each protocol has a transition system whose steps are the single atomic writes the code makes (`RunSystem`,
`LeaseSystem`, `BindingSystem`, `SharedStatus`), an invariant that every step keeps, and theorems over all histories of
steps. Beside it stands the code itself as methods over a class that reaches the store (`Row`, `Client`). Before each
of its accesses the others take whatever steps an oracle lists next (`rivals`), each access may fail, or be kept by the
store and reported failed, as another lists (`faults`), and clocks read as a third lists. A method proved for all
oracles is proved for every interleaving. The class takes no step the system does not allow, so what holds over all
histories holds of the code. Every state a class has been in is in its `trace`, and the states show who took each step,
so a contract speaks of everything a method did by quantifying over the trace: what it wrote, over what, and when. It is
not enough for a method to keep a list of its own. Where a contract speaks of a quiet store (no rivals, no faults), it
says what the code then comes to; under interference a call may fail without having done anything, and its contract says
what it may have done instead. Where only accesses do not fail, it says why a call gave up: for a wait, a deletion, or
because others wrote as often as it tried.

| files | subject |
|---|---|
| Strings, Bytes, Arithmetic, Wrappers | library functions, bytes, facts of division, options and results |
| Calendar, Cron, CronSearch | five-field schedules and the search for the next minute one fires at |
| RunState, RunSystem, RunSafety | a run's states, every writer of it, and fencing over all histories |
| RunRow, RunEngine, RunAttempt, RunDeliver, RunStages, RunBatch | one engine delivering messages: admit, claim, renew, attempt, finish, order |
| RunQuiet | what deliveries come to undisturbed |
| RunCallers | starting, canceling, rescheduling, redriving and purging a run |
| Slots, Serve | slots shared by reservations, and a turn of the serving loop: gathering, grouping, disposing |
| MessageId | 128 bits as 26 characters that sort by time |
| LeaseSystem, Leases, LeaseLevels, LeaseHold | leases stolen by watching, two levels of them, and the loop that renews one |
| BindingSystem, Bindings | bindings kept as two entries, published together and removed apart |
| SharedStatus, StatusStore | a status shared by markers, removed with the last of them |
| SourceCopy | values of an env source copied into variables |
| References | variables that refer to others, one hop, and the index of who refers to whom |
| Channels | patterns of realtime channels, and when two of them or a wildcard reach one channel |
| RuneSets, RoutePattern | sets of characters as ranges, and the rule that bounds ambiguous repeats |
| PatternTree, PatternParts, PatternReader | the grammar of route patterns, what the rule promises of their parts, and the reader that finds whether one keeps it |
| RateCard, Estimate, ScopeTree | tiered prices, allowances shared by an account, totals rolled up a forest |
| Keys, RecordCache | escaped and joined keys, and entries found by their text |
| Tail | a ring of the last bytes written |

## Choices

- A 64-bit set of a schedule field is the set of its bit positions. `Next` counts minutes from the first of year 1 in
  UTC, and one turn of its loop is `Skip`.
- A `Run` is a Go struct copied by value, so it is a datatype; the store's entry of it is the object that changes.
  Times are microseconds, with 0 for the zero time.
- The slices of dispositions and claims that `Deliver` fills in place are sequences that its loops reassign.
- Loops that retry a stale write are a loop over a `Try` method, which is one turn of it.
- The system of a run counts its lives: a run deleted and created again begins a new one. Other engines create no run
  anew while this engine works an attempt of it; `RunSafety.PurgeHandsTheFenceToAnother` shows what would happen, and
  `RunSafety.FenceHoldsWithinALife` that this is the only way it can.
- What its clock read is kept with an entry (`RunRow.Row.readings`), so that a contract can say by which reading a run was
  judged, and that every time written is the last one read. A lease's expiry is said of its wall clock in the same way.
- Minted ids are fresh, and no other engine settles a claim this one made.
- The call that stops an attempt in flight is one of the polls that find its run canceled.
- `RunRow.Row.Made` are the claims an engine made on a run, also those whose writes the store kept and reported failed.
  Deliveries account for them by message.
- How late a lease's holder may run is said of what others do: `Leases.Slowest` is the longest time that passes between
  two of its accesses. An access that ends past a deadline counts as failed, whether or not the store kept it.
- Groups of a turn of the serving loop run at once; the model delivers them one after another, with others' steps on the
  slots in between.
- A lease's time of writing, who took a step, a reservation's number, and the duty to look again at a status are kept so
  that contracts can speak of them. No modelled code reads them.
- A taker's own clock runs with time, as a monotonic clock does. A wall clock, which stored expiries are compared with,
  may read anything at all.
- Decimals are `real`. Go maps are iterated in the order a sequence gives, and the results hold for every order.
- Strings of the keys, the tail and the ids are sequences of bytes; elsewhere they are sequences of characters.
- Library functions (`strings.Fields`, `Split`, `Cut`, `Join`, `slices.SortFunc`, `time.Date`, `strconv.Atoi`) are
  functions written from their documentation.

## Model

| member | source | states |
|---|---|---|
| `Cron.BitsOf` | pkg/cron/cron.go:173-180 | The stepping loop covers exactly the values between first and last that are a whole number of steps past first |
| `Cron.ParseItem` | pkg/cron/cron.go:146-181 | Any text of an item, star, value or range, with or without a step, covers exactly every step-th number from its first to its last, where one value with a step runs on to the end of the field; it is refused, and why, exactly if its step, a value or the order of its range is bad |
| `Cron.SpansMean` | pkg/cron/cron.go:146-181 | For every way an item may be written, its span holds exactly what the item stands for |
| `Cron.TextsAreItems` | pkg/cron/cron.go:146-172 | Every text is that of an item in one of these forms |
| `Cron.StarsMean` | pkg/cron/cron.go:10-29 | A star stands for every minute, hour, day, month or weekday there is |
| `Cron.ParseField` | pkg/cron/cron.go:134-144 | A list stands for what any of its items does, and fails as its first bad item does |
| `Cron.ParseFields` | pkg/cron/cron.go:36-43 | Five fields are parsed in turn up to the first that is refused |
| `Cron.IsReachable` | pkg/cron/cron.go:90-105 | The loops over months and days find whether some month can have a named day, counting 29 days for February |
| `Cron.Parse` | pkg/cron/cron.go:31-61 | A schedule has exactly the numbers its five fields stand for, with Sunday written 0 or 7, or there is a reason why there is none; every schedule satisfies the invariant the search needs |
| `Cron.AssembledIsAccepted` | pkg/cron/cron.go:44-61 | Whatever text it came from, a parsed schedule names a minute, an hour, a day, a month and a weekday in range, and is reachable |
| `Cron.Members` | pkg/cron/cron.go:80-88 | The values of a set in ascending order, each once and none other |
| `CronSearch.Next` | pkg/cron/cron.go:107-123 | The minute returned fires, is later than the instant given, no firing minute lies between, and it lies within one 400-year cycle, so the loop ends |
| `CronSearch.Skip` | pkg/cron/cron.go:109-121 | Jumping over a month, a day or an hour that does not match jumps over no minute that fires |
| `CronSearch.SkipMonth` | pkg/cron/cron.go:110-113 | No minute from here to the first of the next month fires if the month does not |
| `CronSearch.SkipDay` | pkg/cron/cron.go:114-117 | No minute from here to the next midnight fires if the day does not match |
| `CronSearch.SkipHour` | pkg/cron/cron.go:118-121 | No minute of this hour fires if the hour does not |
| `CronSearch.DateOnWeekday` | pkg/cron/cron.go:125-132 | Every day a month can have, 29 February among them, falls on every weekday in some year |
| `CronSearch.FiresWithinACycle` | pkg/cron/cron.go:57-59 | An accepted schedule fires within any 400 years |
| `CronSearch.FiresIffReachable` | pkg/cron/cron.go:57-59 | The check is exact: the fields of a parsed schedule ever fire if and only if isReachable says so |
| `Calendar.DatesAreDistinct` | pkg/cron/cron.go:107-116 | Each day has one date, so normalising dates past the end of a month is unambiguous |
| `Calendar.SameMonthUntilNext` | pkg/cron/cron.go:110-113 | Every day up to the first of the next month, a thirteenth month included, is of the same month |
| `Calendar.CalendarRepeats` | pkg/cron/cron.go:107-123 | Dates and weekdays repeat every 400 years |
| `RunState.VerdictOn` | pkg/runs/transition.go:87-109 | A run is queued again exactly if the attempt may be made again and there are attempts left, completed only by a success, and left alone only when its attempt was canceled |
| `RunState.ReadinessOf` | pkg/runs/transition.go:22-40 | What each field must say for a message to be stale, held, expired, early, exhausted or runnable |
| `RunSystem.InvIsKept` | pkg/runs/deliver.go:320-328 | Every write of every writer of a run (claim, renewal, outcome, expiry, giving up, cancel, reschedule, redrive, rollback, deletion, creation) keeps the invariant of the system |
| `RunSystem.ClaimKeepsInv` | pkg/runs/transition.go:50-57 | A claim has a later attempt than every claim before it under its delivery |
| `RunSystem.FinishKeepsInv` | pkg/runs/transition.go:111-117 | An outcome answers exactly the claim in force, which had none |
| `RunSystem.ReopeningKeepsInv` | pkg/runs/trigger.go:270-281 | A new delivery starts its attempts apart from every earlier claim, and the version it replaced may still be put back |
| `RunSafety.NoTwoClaimsShareAFence` | pkg/runs/run.go:62-64 | Over every interleaving no two claims of one life of a run share delivery and attempts |
| `RunSafety.OutcomesAreFenced` | pkg/runs/deliver.go:450-503 | An outcome is written only over the latest claim, still executing and unanswered |
| `RunSafety.AttemptsStayInBounds` | pkg/runs/transition.go:35-38 | Attempts never exceed MaxAttempts in any reachable state |
| `RunSafety.AttemptsBeginInTime` | pkg/runs/transition.go:22-40 | A run is claimed only with attempts left, and only past the lease of the attempt before, or when it is due and did not expire unstarted |
| `RunSafety.TakeoversWaitOutTheLease` | pkg/runs/deliver.go:268-296 | Whoever claims a run beside an unanswered claim has read a time past that claim's lease, as it was claimed or last renewed |
| `RunSafety.OutputsComeFromAnswers` | pkg/runs/transition.go:59-65 | A completed run has the output of the outcome that completed it, and has not changed since |
| `RunSafety.FinishedRunsStand` | pkg/runs/topics.go:157-187 | A finished run changes only by redriving a failed one or by deletion |
| `RunSafety.SettledRunsStandForLife` | pkg/runs/tasks.go:153-183 | No late outcome, renewal or retry changes a canceled, completed, expired or timed-out run before it is deleted |
| `RunSafety.LostClaimsAreSuperseded` | pkg/runs/deliver.go:461-467 | An engine that no longer owns its run and answered nothing has nothing left to do for the message |
| `RunSafety.LostClaimsStayLost` | pkg/runs/run.go:62-64 | A claim once lost is never owned again, whatever is rolled back or redriven |
| `RunSafety.FenceHoldsWithinALife` | pkg/runs/run.go:62-64 | The fence tells an engine's own claim from others' if and only if the run was not deleted since |
| `RunSafety.PurgeHandsTheFenceToAnother` | pkg/runs/deliver.go:164-183 | A run of steps after which a purged and re-created run is owned by a claim of its former life, so that a late outcome would be written over another engine's claim |
| `RunRow.Row.Write` | pkg/runs/deliver.go:320-328 | A write lands only on the version it was made from, is one legal step of the system, stores exactly the changed version, and always lands when nobody interferes; the claims made on the run grow by the one it may have landed, told of or not. A time it writes is the one the clock read last; it is stale only if another version is stored or none |
| `RunRow.Row.WriteBack` | pkg/runs/trigger.go:290-295 | A rollback lands only on the version it undoes, and stores the version before it |
| `RunRow.Row.Create` | pkg/runs/trigger.go:176-184 | A run is created only where none is stored; a creation that found one is told from one that failed |
| `RunRow.Row.Remove` | pkg/runs/topics.go:189-205 | A run is deleted only at the version read |
| `RunRow.StepsLetClaimsStand` | pkg/runs/run.go:62-64 | No step of any writer gives a lost claim back |
| `RunEngine.Engine.Arrive` | pkg/runs/deliver.go:164-183 | Finds the run a message names, creates a topic message's run once, and reports a run gone only if none is stored and the message names one |
| `RunEngine.Engine.RedeliverUnlessUndeliverable` | pkg/runs/deliver.go:298-311 | Done only after failing a waiting run at the last delivery its queue allows; the run then stands failed for that reason; otherwise redelivered after the wait, and undisturbed the run is unchanged |
| `RunEngine.Engine.RecordUnready` | pkg/runs/deliver.go:239-257 | What is stored for a run held early, expired or out of attempts |
| `RunEngine.Engine.TryAdmit` | pkg/runs/deliver.go:218-266 | One try: what the fields say of a run leads to its own disposition and stored state |
| `RunEngine.Engine.Admit` | pkg/runs/deliver.go:218-266 | Admitted only if runnable as stored; Done only if a run is stored, and finished or on another delivery; a run that is gone by then is redelivered. Undisturbed, a run whose attempt has its lease is left alone for as long as the lease has to run, one that is early until it is due, and one expired or out of attempts is finished, each said of the fields. It is judged by a time read in the call. Without faults, and whatever others do, a message is left undone only until a lease lapses or the run is due, or because the run was deleted or others stored ten versions meanwhile |
| `RunEngine.Engine.TryClaim` | pkg/runs/deliver.go:268-296 | One try: the claim made is the admitted version's delivery with one more attempt |
| `RunEngine.Engine.Claim` | pkg/runs/deliver.go:268-296 | The run is stored executing under a fence no claim had before; a claim the store kept but the engine was not told of is reported too; undisturbed, an admitted run is always claimed. The lease runs from the time last read. Without faults a claim fails only for a wait, a deletion or ten versions stored by others |
| `RunEngine.Engine.TryRenew` | pkg/runs/deliver.go:400-431 | One try: changes the lease and nothing else of a run still owned |
| `RunEngine.Engine.RenewLease` | pkg/runs/deliver.go:400-431 | Reports the run lost only if it was gone or another's when last read; without faults, a run still owned is stored with a lease from the time last read, or others stored ten versions meanwhile |
| `RunEngine.Engine.TryFinish` | pkg/runs/deliver.go:450-503 | One try: records the verdict over the claimed version, or finds that another owns the run |
| `RunEngine.Engine.Finish` | pkg/runs/deliver.go:450-503 | Done only if the claim was superseded. If the claim is answered, a version was stored that is, field by field, what the answer makes of one the claim owned: completed with the answer's output and no error, or failed or queued with its reason and no output of its own, under the same attempts; undisturbed, that is the version stored. Without faults the claim ends answered or superseded, or others stored ten versions meanwhile |
| `RunAttempt.RenewEach` | pkg/runs/deliver.go:380-398 | Each claim of an envelope is renewed in turn, and none is given up; while no access fails, each lease comes out running from a time read since, or lost, or overtaken by ten versions, and a claim lost before is noticed |
| `RunAttempt.PollForCancel` | pkg/runs/deliver.go:433-448 | An attempt is stopped only once its run is gone or canceled; while no access fails, it is stopped if the run was canceled or gone before the look |
| `RunAttempt.Attempt` | pkg/runs/deliver.go:349-378 | An attempt comes out as canceled only for a single run that its engine no longer owns; while no access fails, an attempt with a lease beat has every lease renewed or lost, and a single one whose claim was lost before is canceled |
| `RunDeliver.DeliverOne` | pkg/runs/deliver.go:70-97 | Done only if the run as it stands on return leaves nothing to do for the message, and never for a topic message that has yet to create its run; every claim made, known to the engine or not, is reported; an answered claim is answered by what the worker replied; undisturbed, a runnable run is claimed, attempted once more and settled or queued as its worker answered, and any other is handled as its fields say |
| `RunQuiet.AttemptsEndAsReplied` | pkg/runs/deliver.go:450-503 | Undisturbed, a worker that succeeded leaves its text as the output of a completed run, and one that did not leaves it as the error of a run that failed or waits for another attempt; one cut off has timed out, was interrupted, or failed |
| `RunDeliver.DeliverEach` | pkg/runs/deliver.go:42-50 | Over a slice, one message at a time: on runs apart every Done is sound at the states on return, and always at a state since its own message's turn, which comes after those of earlier messages on the run and the claims made for them; every claim the engine made since is accounted for by a message, and on an ordered topic none is made before an earlier message of its group is done; undisturbed, each message has its turn exactly |
| `RunDeliver.OneMoreInOrder` | pkg/runs/deliver.go:62-68 | Blocking the group of each message left undone keeps the order |
| `RunBatch.AdmitEach` | pkg/runs/deliver.go:104-130 | The first pass decides or admits every message and claims none; undisturbed, each is judged, held back or admitted as its run says |
| `RunStages.Settle` | pkg/runs/deliver.go:127-129 | Settling one undecided message keeps the order across both passes |
| `RunBatch.ClaimEach` | pkg/runs/deliver.go:141-160 | The second pass claims an admitted message only while its group is not blocked, holds each claim once, and accounts for every claim it made |
| `RunBatch.RefuseEach` | pkg/runs/deliver.go:131-139 | Without a slot every admitted message is redelivered or given up, and what is Done stays sound |
| `RunBatch.FinishEach` | pkg/runs/deliver.go:338-347 | Every run of the envelope is finished, no claim is left over, and what is Done is sound |
| `RunBatch.DeliverBatch` | pkg/runs/deliver.go:99-162 | A batch keeps the order of each group, answers Done soundly and accounts for every claim; undisturbed, each message ends judged, refused, attempted, or held back by one of its group that may not start |
| `RunBatch.Deliver` | pkg/runs/deliver.go:24-51 | Whatever happens to the runs meanwhile: on runs apart every Done is sound at the states on return, and always at a state since its own message's turn; every claim the engine made since, known to it or not, is one message's; and on an ordered topic a claim is made only if every earlier message of the group is Done or, for a batching consumer, claimed in the same envelope. Undisturbed, every message comes to exactly what it should |
| `RunCallers.Start` | pkg/runs/trigger.go:168-191 | A run started is stored for its own message, which no earlier message's delivery can start, or deleted again if the message could not be sent; contended only if a run is stored already |
| `RunCallers.TryCancel` | pkg/runs/tasks.go:155-173 | One try: a version not finished is canceled, a newer one is read |
| `RunCallers.Cancel` | pkg/runs/tasks.go:153-183 | After a cancel succeeds the run is finished and no attempt owns it; undisturbed, the run stored is the canceled one, field by field; it fails only for a fault, and is contended only once others stored ten versions meanwhile |
| `RunCallers.SendReopened` | pkg/runs/trigger.go:290-296 | A reopening whose message cannot be sent is taken back to the version it was made from |
| `RunCallers.Move` | pkg/runs/trigger.go:274-298 | One move of a delayed run to another time under a new delivery |
| `RunCallers.Reschedule` | pkg/runs/trigger.go:253-306 | A rescheduled run is due when asked, under a delivery no earlier message carries, so that none of them can start it, or the debounced run was due later already; a failed send restores it; only a delayed run is moved; it is contended only once others stored ten versions meanwhile |
| `RunCallers.RedriveOne` | pkg/runs/topics.go:162-182 | A dead letter is queued again from its first attempt under a delivery no earlier message carries, restored if its message cannot be sent, or left as whoever changed it first left it |
| `RunCallers.PurgeOne` | pkg/runs/topics.go:191-200 | A dead letter is deleted unless it changed first; a purge that failed is told from one that came too late |
| `Serve.DeliveriesOf` | pkg/runs/serve.go:149-178 | Every message received is delivered once; a batch together, an ordered topic's by group and in order, any other's singly |
| `RunEngine.GroupsAreKeysOrRuns` | pkg/runs/queue.go:25-37 | Messages with keys are of one group exactly if the keys are the same, and without exactly if they name one run |
| `Serve.GroupEach` | pkg/runs/serve.go:163-173 | The loop gathers each group's messages in the order they came |
| `Serve.GroupsPartition` | pkg/runs/serve.go:174-178 | Delivering every group delivers every message and none twice |
| `Serve.Gather` | pkg/runs/serve.go:118-147 | No more messages than were asked for |
| `Serve.Turn` | pkg/runs/serve.go:65-108 | Whatever others do on the same slots, a turn of the serving loop ends with all of its slots given back on the consumer and on the worker, every message it received let go and what earlier turns hold still held; undisturbed, it reserves as many as both have free |
| `Slots.LocalSlots.Reserve` | pkg/runs/slots.go:109-118 | What is used stays the sum of what is held, and a grant never takes it past a positive limit |
| `Slots.LocalSlots.Release` | pkg/runs/slots.go:126-131 | Slots given back leave the sum right and wake whoever waits |
| `Slots.Reservation.constructor` | pkg/runs/slots.go:144-153 | Consumer and worker hold the same for the reservation, however others' reservations interleave |
| `Slots.Reservation.Keep` | pkg/runs/slots.go:155-159 | Both keep just n |
| `Slots.NothingLeftMeansNothingUsed` | pkg/runs/slots.go:83-88 | Once every reservation has given back what it held nothing is used |
| `Slots.SumChanges` | pkg/runs/slots.go:109-131 | A change of one holding changes the sum by as much |
| `MessageId.EncodeMessageID` | pkg/runs/messageid.go:24-44 | The text is the 48 bits of milliseconds and 80 of entropy as 26 base-32 characters |
| `MessageId.Pack` | pkg/runs/messageid.go:31-43 | The packing loop writes all 26 places, and their digits stand for the same number as the 16 bytes |
| `MessageId.Packed` | pkg/runs/messageid.go:25-30 | The 16 bytes stand for the milliseconds a uint64 holds, cut to 48 bits, and the entropy |
| `MessageId.TakeIn` | pkg/runs/messageid.go:35-36 | The bits a 32-bit word shifts out are never among those still held |
| `MessageId.GiveOut` | pkg/runs/messageid.go:37-41 | Five bits written out leave the rest held |
| `MessageId.TextsSortAsNumbers` | pkg/runs/messageid.go:24-44 | Two texts sort as the numbers they encode, and differ whenever those do |
| `MessageId.IdsSortByTimeAndEntropy` | pkg/runs/messageid_test.go:13-30 | Ids sort by milliseconds and then by entropy, and are equal only if both are |
| `LeaseSystem.InvIsKept` | pkg/stackrecords/environmentleases.go:167-211 | Every take, renewal, steal and freeing keeps every stored lease one that was written, under its own revision |
| `LeaseSystem.LostOnlyAfterStandingStill` | pkg/stackrecords/environmentleases.go:184-200 | A lease renewed within the TTL is lost only by its holder's own freeing |
| `LeaseSystem.HoldersThatKeepUpStay` | pkg/stackrecords/environmentleases.go:167-211 | A holder renewing less than a TTL apart is never displaced, whatever the wall clocks say |
| `LeaseSystem.OneSeesTheOther` | pkg/stackrecords/environmentleases.go:83-101 | In every interleaving, of a deploy that entered and a removal that listed, the listing names the deploy |
| `LeaseSystem.RemovalRunsAlone` | pkg/provider/providerserver/projectremoval.go:299-322 | A removal that holds its project and every environment it listed runs beside no deploy that keeps its lease |
| `LeaseSystem.WithoutLookingBothRun` | pkg/stackrecords/environmentleases.go:92-99 | Without the look at the project's lease both would run |
| `Leases.Client.Write` | pkg/stackrecords/environmentleases.go:271-279 | A lease is written only over the entry it was made from |
| `Leases.Ponder` | pkg/stackrecords/environmentleases.go:175-200 | One look: writing is allowed only over a free lease, the token's own, or one whose revision stood still for a TTL on the taker's clock |
| `Leases.GoOnWatching` | pkg/stackrecords/environmentleases.go:195-199 | The watch ends only once a TTL has passed on the taker's own clock, and each wait brings the end nearer, none longer than the watch interval or what is left of the TTL |
| `Leases.TryTake` | pkg/stackrecords/environmentleases.go:174-210 | One turn of the taking loop |
| `Leases.TakeLease` | pkg/stackrecords/environmentleases.go:167-211 | Taking ends; the token does nothing but write that lease, and nothing before the write that takes it; a lease taken was free, the token's own, or stood still a whole TTL; undisturbed, it is taken unless another holds it. The expiry stored is a TTL past what the wall clock read; taking fails only for a fault, or once others were faster more than five times |
| `Leases.TryRenew` | pkg/stackrecords/environmentleases.go:223-242 | One try to renew: every write of the token since is over its own lease; it ends by the deadline but for the access under way; with no access failing, and time left for two, it renews whatever others do |
| `Leases.RenewLease` | pkg/stackrecords/environmentleases.go:223-242 | Every step the token took since wrote this lease while it held it, so a displaced holder writes nothing; it ends by its deadline but for the access under way; with no access failing, and time left for two, it renews whatever others do; undisturbed, it renews exactly if the token holds the lease and otherwise changes nothing; without faults it ends unrenewed only past its deadline or after ten steps of others |
| `LeaseLevels.ForgetMatching` | pkg/records/records.go:201-218 | Every step the token took since freed this lease while it matched; undisturbed, a matching lease goes and every other stays; without faults it gives up only after ten steps of others |
| `LeaseLevels.ForgetLease` | pkg/stackrecords/environmentleases.go:264-269 | Every step the token took since freed its own lease; undisturbed, its lease goes and every other stays |
| `LeaseLevels.WatchProject` | pkg/stackrecords/environmentleases.go:121-138 | A project's lease is freed for another only after its revision stood still for a TTL |
| `LeaseLevels.ForgetStoppedProjectLease` | pkg/stackrecords/environmentleases.go:112-142 | Refused only if another held the project when it was looked at; clear only if nobody else did or the lease found there stood still for a TTL and is gone; nothing but that lease is freed; undisturbed, exactly that; undisturbed, another's lease is refused exactly if the wall clock is short of its expiry |
| `LeaseLevels.RefuseHeldProject` | pkg/stackrecords/environmentleases.go:144-153 | What the second look finds |
| `LeaseLevels.TakeEnvironmentLease` | pkg/stackrecords/environmentleases.go:83-101 | Success means the project's lease was absent or its own at an instant after its own environment lease was in place; a refused taker holds no lease it did not hold before unless freeing it failed; undisturbed, it succeeds unless another holds the environment or the project, and changes no other lease |
| `LeaseLevels.TakeProjectAndList` | pkg/provider/providerserver/projectremoval.go:327-348 | The listing is made after the project's lease was in place; undisturbed, it is made unless another holds the project |
| `LeaseHold.KeepRenewing` | pkg/provider/providerserver/environmentleases.go:172-204 | If the terms leave room for the slowest access to come, the holder has the lease in every state until it is told to stop, is never displaced, and stops while the lease is still fresh; if no access fails and any two fit in a retry, the lease is renewed at every turn until the work ends, whatever others do; in any case it is released only by the end of its work or a cut wait, stopped only after all but the margin of a TTL without a renewal, and displaced only when it no longer has the lease |
| `Leases.UntouchedWhileFresh` | pkg/stackrecords/environmentleases.go:167-211 | Within a TTL of its writing nobody but its own token changes a lease |
| `LeaseHold.HeldThroughout` | pkg/provider/providerserver/environmentleases.go:172-204 | A lease is held throughout any stretch that ends within a TTL of its writing |
| `LeaseHold.DefaultTermsLeaveRoom` | pkg/provider/providerserver/environmentleases.go:21-29 | The constants leave room for that |
| `BindingSystem.InvIsKept` | pkg/variablestore/bindings.go:213-217 | Every publish and every removal of a half keeps two stored halves of one publish |
| `BindingSystem.HalvesAgree` | pkg/variablestore/bindings.go:171-219 | In every reachable state two halves stored beside each other come from one publish |
| `BindingSystem.VersionsCountPublishes` | pkg/variablestore/bindings.go:186-197 | While a record stays, its version tells publishes apart, and no publisher but ocel takes it from its owner |
| `BindingSystem.RecordsNeverReturn` | pkg/variablestore/bindings.go:361-367 | A record once replaced or removed is never stored again |
| `BindingSystem.NeverTornIffOnlyLoneValuesGo` | pkg/variablestore/bindings.go:345-376 | Over any history no record is ever without its value if and only if every value taken away had no record beside it |
| `BindingSystem.TornIffOvertaken` | pkg/variablestore/bindings.go:302-312 | The value an unconditional removal takes leaves a record torn if and only if a publish landed after the removal found the record gone, and that record was not removed since |
| `BindingSystem.SameVersionSamePublishIffItStayed` | pkg/variablestore/bindings.go:197 | Two records of one version are of one publish if and only if the record was never gone in between |
| `BindingSystem.RemovalRestartsVersions` | pkg/variablestore/bindings.go:197 | After a removal versions start again, so equal versions read at different times may be of different publishes |
| `BindingSystem.RemovalTearsAnOvertakingPublish` | pkg/variablestore/bindings.go:302-312 | A publish between the two halves of an unconditional removal is left without its value |
| `Bindings.PublishPair` | pkg/variablestore/bindings.go:171-219 | Both halves are stored over the version and owner read, or nothing is; refusals write nothing; undisturbed, the outcome is exactly as owner and expected version say. A refusal names what stands when it is made, and only a fault makes it fail |
| `Bindings.Forget` | pkg/records/records.go:197-218 | Every step of the client since takes that half of that binding; undisturbed, it is gone and everything else stays; without faults it gives up only after ten steps of others |
| `Bindings.RemoveBinding` | pkg/variablestore/bindings.go:302-312 | First the record is gone, then the value; every step of the client since takes a half of that binding; what it takes leaves a record torn exactly if a publish overtook it; undisturbed, both halves are gone and everything else stays |
| `Bindings.RemoveUnchanged` | pkg/variablestore/bindings.go:345-376 | Every step of the client since takes the record of a publish of the expected version, or a value with no record beside it; undisturbed, both go exactly if the version is the expected one; only a fault makes it fail |
| `Bindings.RemoveLone` | pkg/variablestore/bindings.go:368-375 | The value taken is never the half of a publish whose record stands |
| `Bindings.ReadPair` | pkg/variablestore/bindings.go:441-468 | Resolves to both halves of one publish of the first environment that has either, or reports torn or unpublished |
| `Bindings.ResolveBindings` | pkg/variablestore/bindings.go:386-439 | All names resolve in one listing of the store, each with both halves of one publish |
| `SharedStatus.InvIsKept` | pkg/envsource/status.go:84-103 | While a status has no sharer some caller has yet to look again |
| `SharedStatus.NoOrphanOnceAllAreThrough` | pkg/envsource/status.go:133-168 | Once every caller is through, each at its own time and idle since, each status left has a sharer |
| `StatusStore.ForgetUnshared` | pkg/envsource/status.go:162-168 | Ends without an error only after a look, by this caller, at which the status was shared or gone, and owes one look fewer; without faults it gives up only after ten steps taken meanwhile |
| `StatusStore.WriteStatus` | pkg/envsource/status.go:84-103 | Without an error it has recorded the status itself and owes no more looks than before, so one that created the status has looked who shares it; undisturbed, the status is kept exactly if it was there or is shared; without faults it gives up only after ten steps taken meanwhile |
| `StatusStore.Release` | pkg/envsource/status.go:152-160 | Without an error the marker was gone in some state and the caller owes no more looks than before; undisturbed, the marker goes, and the status with the last marker; without faults it gives up only after ten steps taken meanwhile |
| `StatusStore.MoveSharer` | pkg/envsource/status.go:133-150 | Without an error the new marker was in place before the old one was gone, and the caller owes no more looks than before; undisturbed, exactly those markers and statuses are left |
| `RuneSets.MergeRunes` | pkg/edge/ocelroutepattern.go:45-57 | Sorted ranges with gaps between them that stand for the same characters |
| `RuneSets.UnionRunes` | pkg/edge/ocelroutepattern.go:59-61 | Exactly the characters of either |
| `RuneSets.InvertRunes` | pkg/edge/ocelroutepattern.go:63-76 | Exactly the characters left out |
| `RuneSets.IntersectRunes` | pkg/edge/ocelroutepattern.go:78-88 | Exactly the characters of both |
| `RuneSets.CanonicalFormIsUnique` | pkg/edge/ocelroutepattern.go:45-57 | Such ranges are determined by the characters they stand for |
| `RuneSets.ComplementIsItsOwnInverse` | pkg/edge/ocelroutepattern.go:63-76 | Complementing twice gives the same ranges back |
| `RoutePattern.HasSeparator` | pkg/edge/ocelroutepattern.go:305-309 | Found exactly if a required part between matches none of the shared characters |
| `RoutePattern.RefuseOverlappingItems` | pkg/edge/ocelroutepattern.go:286-303 | Refused exactly if two repeats share a character with no separator between |
| `RoutePattern.FewSplits` | pkg/edge/ocelroutepattern.go:286-309 | With a separator of k characters a text divides among two repeats in at most k + 1 ways |
| `RoutePattern.SplitsAreBoundedExactlyIfApart` | pkg/edge/ocelroutepattern.go:286-309 | The ways are bounded if and only if the rule holds |
| `RoutePattern.AcceptedRepeatsSplitInFewWays` | pkg/edge/ocelroutepattern.go:286-309 | So they are for neighbouring repeats of any accepted sequence |
| `RateCard.Cumulative` | pkg/pricing/card.go:128-141 | The loop over the steps is the tiered cost |
| `RateCard.Between` | pkg/pricing/card.go:117-126 | The cost of the units between two quantities, and the price of the tier of the last |
| `RateCard.WithinATier` | pkg/pricing/card.go:117-141 | Units within one tier cost its price each, the marginal price reported |
| `RateCard.Load` | pkg/pricing/card.go:45-65 | Accepts a card exactly if each rate is named, measured, sourced and dated, has steps in order from zero, and says who gets its free first tier if and only if it has one, and no two share a key |
| `RateCard.CheckedRatesAreTiered` | pkg/pricing/card.go:67-97 | A rate that passes the check has steps from zero in order |
| `RateCard.Lookup` | pkg/pricing/card.go:103-111 | The region's own rate before the one for every region, and whether it fell back |
| `RateCard.Merge` | pkg/pricing/card.go:143-156 | Each key has the rate of the first card that has it |
| `Estimate.Tally.Charge` | pkg/pricing/estimate.go:346-355 | All that an account was charged under a rate is the tiered cost of all it used |
| `Estimate.ChargesSumToTheTieredCost` | pkg/pricing/estimate.go:346-355 | Charged resource by resource, an account pays the tiered cost of the total |
| `Estimate.Tally.Price` | pkg/pricing/estimate.go:363-411 | Fixed is the sum of the rounded lines of the components that are not usage-based and usage that of the others; a component unknown or without a rate adds nothing |
| `Estimate.NothingOfTheKind` | pkg/pricing/estimate.go:397-401 | With no usage-based component the usage is nothing, and with no other the fixed part is |
| `Estimate.RoundsToTheCent` | pkg/pricing/estimate.go:393 | A cost is rounded to the nearest whole cent, and of two as near to the one further from zero |
| `Estimate.RoundingAddsUp` | pkg/pricing/estimate.go:393 | Rounding moves a total by at most half a cent a component |
| `Estimate.PriceEach` | pkg/pricing/estimate.go:278-314 | Scope amounts are the sums of the lines of their resources, and add up to the totals; every resource is priced after those before it, and counted once by how it ended |
| `Estimate.EstimateSet` | pkg/pricing/estimate.go:257-324 | Fixed and usage are the sums of the lines of all resources, each apart, and the roots' totals sum to them when every resource's scope is listed |
| `ScopeTree.Tree.Scope` | pkg/pricing/tree.go:23-36 | Every id is longer than its parent's and listed once |
| `ScopeTree.Walk` | pkg/pricing/estimate.go:420-425 | The walk up the parents ends, and adds the amount once to each scope above |
| `ScopeTree.RollUp` | pkg/pricing/estimate.go:413-435 | Each scope's total is the sum of what its subtree carries, in whatever order the amounts come |
| `ScopeTree.RootsSumToTheTotal` | pkg/pricing/estimate.go:413-435 | The roots' totals sum to everything |
| `ScopeTree.ChildrenSumToTheirParent` | pkg/pricing/estimate.go:413-435 | A scope's total is its own amount and its children's totals |
| `Keys.EscapeSegment` | pkg/records/records.go:88-98 | The escaping loop |
| `Keys.UnescapeSegment` | pkg/records/records.go:100-118 | The unescaping loop, and when it refuses |
| `Keys.UnescapeUndoesEscape` | pkg/records/records.go:88-118 | Unescaping undoes escaping for every choice of plain bytes |
| `Keys.JoinSegments` | pkg/records/records.go:67-74 | Every segment escaped and joined |
| `Keys.SplitSegments` | pkg/records/records.go:76-86 | Split and unescaped, refused if any segment is |
| `Keys.SplitUndoesJoin` | pkg/records/records.go:67-86 | Splitting undoes joining for every non-empty list and every separator without a percent sign or hex digit |
| `Keys.NoSegmentsJoinAsOneEmpty` | pkg/records/records.go:67-74 | Why the list must not be empty |
| `Keys.RefuseMalformedKey` | pkg/records/records.go:149-169 | A key is let through exactly if its tier is one of the two, it names an entry and no segment is empty |
| `Keys.KeysHaveTheirOwnText` | pkg/records/records.go:54-65 | Two well-formed keys have one text only if they are one key |
| `RecordCache.Cache.Load` | pkg/variablestore/recordcache.go:31-40 | Every entry listed is kept under its key |
| `RecordCache.Cache.At` | pkg/variablestore/recordcache.go:42 | Finds exactly the entry last listed under the key |
| `Tail.Tail.Write` | pkg/tracing/tail.go:27-46 | After any writes the ring holds exactly the last bytes written, up to its limit |
| `Tail.CopyKeeps` | pkg/tracing/tail.go:37-44 | One copied chunk keeps that |
| `Tail.Tail.Text` | pkg/tracing/tail.go:74-79 | Everything written while less than the limit, else the last bytes without at most three that go on with a character cut in two |
| `Tail.RuneStartsByBits` | pkg/tracing/tail.go:83 | A byte starts a character exactly if its two top bits are not 10 |
| `Tail.StartOnCharacter` | pkg/tracing/tail.go:81-88 | For any bytes at all, the result leaves out at most the first three, and only if they go on with a character cut in two |
| `Tail.TrimsToACharacter` | pkg/tracing/tail.go:81-88 | On UTF-8 the text starts on a character and loses at most three bytes, so long as the last character is whole |
| `Tail.Tail.WholeLines` | pkg/tracing/tail.go:61-72 | The line cut in two is left out |
| `RunQuiet.OneMoreTurn` | pkg/runs/deliver.go:52-68 | One more message of a slice, held back exactly if an earlier one of its group is left undone, leaves the turns of the others as they were |
| `RunQuiet.OneMoves` | pkg/runs/deliver.go:104-160 | One message moving through the passes of a batch leaves every other where it stands, and a blocked group always has one of it that may not start |
| `RunQuiet.AllEnded` | pkg/runs/deliver.go:99-162 | Once no message is open, each is judged, refused, attempted, or held back by another of its group that is left undone and may not start |
| `RunDeliver.StillAccounted` | pkg/runs/deliver.go:42-50 | Delivering one message keeps every other Done sound and every other claim accounted for |
| `RunStages.AttemptKeepsAccounts` | pkg/runs/deliver.go:349-378 | An attempt of the claimed runs changes nothing for the messages already done |
| `RunStages.WorksApart` | pkg/runs/deliver.go:141-160 | No two works of an envelope are of one message |
| `LeaseSystem.HeldBefore` | pkg/stackrecords/environmentleases.go:167-211 | A token holds only what it wrote itself |
| `LeaseHold.StillHeld` | pkg/provider/providerserver/environmentleases.go:172-204 | A lease held so far is still held, and fresh, after a stretch that ends within a TTL of its writing and in which its holder does not free it |
| `LeaseLevels.NotPutSince` | pkg/stackrecords/environmentleases.go:83-101 | A token that has written no lease holds none it did not hold before |
| `Bindings.TearingIsOvertaking` | pkg/variablestore/bindings.go:302-312 | From the moment the record is gone, a removal tears exactly if a publish overtakes it |
| `Bindings.StaysLone` | pkg/variablestore/bindings.go:368-375 | A value whose record was gone when it was stored is without one as long as it stays |
| `SharedStatus.DutiesEndInLooking` | pkg/envsource/status.go:162-168 | A caller owes fewer looks at a status only by a look of its own at which the status was shared or gone |
| `SharedStatus.ThroughStaysThrough` | pkg/envsource/status.go:84-168 | A caller that takes no step owes nothing more, whatever others do |
| `SourceCopy.CopyValues` | pkg/envsource/copy.go:27-96 | Whatever others write meanwhile, every write of a copy is, in the folders copied, over the version listed and no later reading, a value newer than the one listed or the removal of one the source has no more, and every value reported written was written; undisturbed, each cell becomes what a copy makes of it and exactly those changed are reported |
| `SourceCopy.CopiesNeverGoBack` | pkg/envsource/copy.go:57-66 | As long as others raise the version of what they store and nobody forgets the cell after it was listed, a value is never stored over a newer numbered version of its own source |
| `SourceCopy.SameCellIffKept` | pkg/variablestore/store.go:135-158 | A cell that is live twice under one version is the very same if and only if nobody forgot it in between |
| `SourceCopy.ReplacesTheListedIffKept` | pkg/envsource/copy.go:57-66 | What a copy replaces is what was listed if and only if nobody forgot the cell since |
| `SourceCopy.GoesBackIffReadOutOfOrder` | pkg/variablestore/provenance.go:21-31 | Whatever others do, a copy stores a lower numbered version over a higher of its source if and only if the two were read out of order |
| `SourceCopy.InOrderNoneGoesBack` | pkg/variablestore/provenance.go:21-31 | While a source is read in order, no copy of it goes back, whatever others do |
| `SourceCopy.ForgottenCellsMayGoBack` | pkg/variablestore/provenance.go:33-56 | If the cell is forgotten and stored anew in between and the source was read out of order, a copy stores an older version over a newer one |
| `SourceCopy.SameVersionSameCell` | pkg/variablestore/store.go:135-158 | A cell that is live under a version it had before was not changed since |
| `SourceCopy.CopiedCellIsCurrent` | pkg/envsource/copy.go:44-94 | A copy leaves a cell with the value read unless it is refused, newer there or another's, and without one the source has no more |
| `SourceCopy.CopiesConverge` | pkg/envsource/copy.go:27-96 | Copying once more what was read brings in and removes nothing |
| `SourceCopy.OlderCopiesChangeNothing` | pkg/envsource/copy.go:57-66 | A copy of an older reading leaves alone what a later one brought in or removed |
| `SourceCopy.NeverAnOlderReading` | pkg/variablestore/provenance.go:21-31 | No write or deletion replaces a later reading of its own source |
| `SourceCopy.NewerOneWay` | pkg/envsource/copy.go:136-146 | Of two different versions each is newer than the other unless both are numbered alike, when exactly one is |
| `SourceCopy.NewerGoesOn` | pkg/envsource/copy.go:136-156 | Numbered versions never come round |
| `References.Store.SetReference` | pkg/variablestore/references.go:19-62 | A reference is set exactly if that leaves every reference one hop from a value, and otherwise nothing changes |
| `References.Store.Refer` | pkg/variablestore/references.go:45-60 | The old reference leaves the index, the cell is written and the new one enters it; the index stays exactly that of the cells |
| `References.ReferringKeepsOneHop` | pkg/variablestore/references.go:25-43 | A reference that passes the checks keeps every reference one hop from a value |
| `References.TwoCheckedAtOnce` | pkg/variablestore/references.go:19-62 | Two references, each checked before either was written, keep that if and only if neither refers to the other |
| `References.CanonicalNamesOneVariable` | pkg/variablestore/names.go:56-69 | Two addresses are kept as one exactly if they are of one variable, the empty folder and environment being other names of the root and of all |
| `References.TargetsAreTierWide` | pkg/variablestore/references.go:23-25 | A reference names the variable of its project, folder and key that holds for the whole tier |
| `References.IndexFollows` | pkg/variablestore/references.go:49-60 | The index after a reference is set is exactly that of the cells |
| `References.Store.References` | pkg/variablestore/references.go:64-82 | Exactly the variables that refer to this one |
| `References.Store.Set` | pkg/variablestore/store.go:98-158 | A value is stored exactly if it is not too large, the variable is no reference, and the version is the one expected |
| `References.Store.Remember` | pkg/variablestore/store.go:160-179 | The history kept is always that of the last fifty versions |
| `References.Store.Get` | pkg/variablestore/store.go:181-241 | A read finds nothing, a dangling reference, or the value one hop away, and never a reference behind a reference |
| `References.Store.Delete` | pkg/variablestore/store.go:405-442 | A deletion keeps the version behind it, and takes the reference out of the index |
| `Channels.ParsePattern` | pkg/realtime/pattern.go:27-58 | Read exactly if the text is that of a pattern, and as that pattern |
| `Channels.SegmentsAre` | pkg/realtime/pattern.go:20-23 | What the two expressions for segments and parameters match, by the codes of characters |
| `Channels.ReadSegments` | pkg/realtime/pattern.go:35-57 | The loop over the parts finds the one pattern they read as, if any |
| `Channels.PatternsReadBack` | pkg/realtime/pattern.go:27-58 | A text is a pattern's if and only if its parts read as the pattern |
| `Channels.PrefixesOverlap` | pkg/realtime/pattern.go:85-92 | Found exactly if some channel fits both prefixes |
| `Channels.Overlaps` | pkg/realtime/pattern.go:69-71 | Found exactly if some channel is of both patterns |
| `Channels.WildcardsReachAChannel` | pkg/realtime/config.go:43-45 | A wildcard is refused exactly if its subscriber could receive no channel |
| `Channels.WildcardCovers` | pkg/realtime/pattern.go:73-83 | Found exactly if a subscriber that leaves off trailing parameters would receive some channel of the other pattern |
| `Channels.RefuseChannels` | pkg/realtime/config.go:32-82 | Refused exactly if a declaration does not stand by itself, two share a channel, or a wildcard would let its subscribers receive another's channel |
| `PatternReader.RefuseOverlappingRepeats` | pkg/edge/ocelroutepattern.go:39-43 | A pattern is accepted if and only if, up to its end or to a bracket that nothing opened, it reads as a tree in which every sequence at every level keeps the rule; in an accepted one any two parts of a sequence that may be matched any number of times and share a character have a part between them that may not be left out and matches none of the shared characters |
| `PatternTree.CountsOf` | pkg/edge/ocelroutepattern.go:186-216 | A repeat counts as unbounded if and only if it allows more than any number of matches, and as mandatory if and only if it does not allow none |
| `PatternParts.RuleMakesUnambiguous` | pkg/edge/ocelroutepattern.go:286-303 | A tree that keeps the rule has, in no sequence at any level, two parts that compete unparted, said of counts and characters alone |
| `PatternTree.OneReading` | pkg/edge/ocelroutepattern.go:90-284 | A text reads as alternatives in one way only |
| `PatternReader.Reader.ReadAlternation` | pkg/edge/ocelroutepattern.go:90-103 | The branches of the one reading up to what closes them, with what they mean; or no reading keeps the rule |
| `PatternReader.Reader.ReadSequence` | pkg/edge/ocelroutepattern.go:105-115 | The pieces up to what ends them, with what they mean; or no reading keeps the rule |
| `PatternReader.Reader.ReadAtom` | pkg/edge/ocelroutepattern.go:117-142 | One piece, and the items it stands for |
| `PatternReader.Reader.ReadGroup` | pkg/edge/ocelroutepattern.go:144-179 | A group, with or without a capture, and its quantifier |
| `PatternReader.Grouped` | pkg/edge/ocelroutepattern.go:157-178 | What a group stands for: its items, or one opaque item that covers its branches |
| `PatternReader.Reader.ReadQuantifier` | pkg/edge/ocelroutepattern.go:186-216 | Every form of a repeat, its laziness skipped |
| `PatternReader.Reader.ReadBounds` | pkg/edge/ocelroutepattern.go:201-208 | Bounds in braces, or braces taken as they stand |
| `PatternReader.EscapedRunes` | pkg/edge/ocelroutepattern.go:218-236 | The characters an escape stands for |
| `PatternReader.Reader.ReadClass` | pkg/edge/ocelroutepattern.go:238-284 | Exactly the characters the members name, or all others |
| `PatternReader.Reader.ReadMember` | pkg/edge/ocelroutepattern.go:244-274 | One member: an escape, a range or a character |
| `Serve.Dispose` | pkg/runs/serve.go:180-198 | Only messages done are deleted and only others hidden, and all of them are if nothing fails |
| `Estimate.Tally.PriceComponent` | pkg/pricing/estimate.go:363-411 | One component's line and what the account has used after it |

## Left out

- Leases, debounce records, idempotency keys and cursors of triggers: only the run itself is modelled, so a crash between
  a store write and the send that follows it is not, and no claim is made that every unfinished run has a message.
- `RunRow.Row.Create` and a purge: a redelivered topic message re-creates a purged run from scratch, so fencing is stated
  within one life of a run.
- Backoff and jitter: a retry waits for any time at all.
- Distributed concurrency slots (`Slots.Take` of the engine): whether they are held is an input of a delivery.
- Wake-ups of waiting reservations: `LocalSlots` counts broadcasts, and what waits on them is not modelled.
- Claims of binding names (`pkg/variablestore/claims.go`): giving one up and taking it again are accesses that may fail.
- Sealing and opening of binding values, and hashing of dedupe keys: opaque to every property here.
- Registration records of env sources, `ClearProvenance`, and store errors met in the middle of a copy.
- `SourceCopy.CopiesNeverGoBack`: holds while no one forgets the cell (`ForgetFromEnvSource`, `Purge`) between the listing
  and the write, because versions then count from one again, or else while the source is read in order
  (`SourceCopy.GoesBackIffReadOutOfOrder`); with neither, `SourceCopy.ForgottenCellsMayGoBack` shows a copy go back.
- References set, and variables written, by several callers at once: `References` is one caller's store, and
  `References.TwoCheckedAtOnce` says when two checks made at once let a second hop in.
- Publishers of variables, batches of reads with dereferencing, and the sealing of variables.
- Environments' records, and the naming of cloud resources.
- Formulas of the pricing tables and the usage file: a resource comes with the components its formula built.
- HTTP, queues, clouds, JSON and the user interface.
