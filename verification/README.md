# Verified model of the queues

This project models the protocols of the Go queue library and proves what they promise.

- **Frontier MPMC** (`ring/frontier`): any number of producers and consumers reserve intervals with one
  compare-and-swap, copy slot by slot, and leave the interval's end in a record; the other side follows
  the records to move a shared frontier. `Lanes` is one side, `Records` the record loops, `Discovery` the
  same loops interleaved with other callers, `FrontierMPMC` the step system, and `FrontierInvariant`,
  `FrontierSafety`, `FrontierSteps` and `FrontierTheorems` the proof. `FrontierBulk` and `FrontierStale` settle
  when a refused bulk transfer, and a reported count, can be trusted. `FrontierQuiet` says what a call answers that
  runs undisturbed, `FrontierProgress` that it returns, and `FrontierClearing` that a clearing queue keeps nothing.
  `SlotCopy` is the two-part copy on arrays, and `FrontierCopies` shows that the slot steps of a call add up to it.
- **MPSC Count** (`ring/frontier`): `ObserverCount`, an observer that rebuilds 64-bit positions from a packed
  32-bit word and may retain what it proved, and `ObserverQuiet`, what an undisturbed Count returns.
- **dpdk MPMC** (`ring/dpdk`): `Words32` is 32-bit arithmetic over unbounded numbers, `DpdkRing` the step system
  with ordered and relaxed sides, `DpdkInvariant` and `DpdkTheorems` the proof. `DpdkRefusals` and
  `DpdkStall` settle when a refusal can be trusted, `DpdkDistance` is the limit on a relaxed side's reach,
  `DpdkProgress` what a call gets done by itself, and `DpdkHeadFirst` a run that shows why the tail is loaded
  before the head.
- **Wait and wake** (`workq`): `SideWord` and `WaitSide` are the packed word and the linked list as an object;
  `WakeProtocol` is the step system of one side, `WakeInvariant`, `WakeTheorems` and `WakePromises` the proof,
  `WakeResults` ties what calls are told to what they took, `WakeOrder` is the order of waking, `WakePair` runs
  both sides of a queue together, and `WakeWord` puts the counts back into the word.
- **Durable queue** (`workq/durable`): `DurableTables` is the store and what makes it sound, `DurableCommands` what
  commands mean, `DurableEffects` what they do and when, `DurableExecution` and `DurableQueue` the two-pass
  executor, `DurableValidator` the startup check, `DurableGroups` grouping, `DurableSessions` whole lives over
  reopenings, `DurablePayloads` and `DurableProgress` what waits and how it gets done, `DurableEncoding` keys and
  tokens, `DurableAdmission` slots, the handoff order and collection, `DurableBudget` the byte budgets,
  `DurableDelivery` the claims of deliveries, and `DurableDispatch` the scan that makes them.
- **Runner** (`workq/runner`): `RunnerRetry` and `RunnerHeld` are the retry loop on its arrays, `RunnerLifecycle`,
  `RunnerTheorems` and `RunnerProgress` conservation and completion over submissions, workers, aborts and
  shutdown.

Concurrent code is a step system: one step is one atomic access of one call, any number of calls interleave,
and a theorem speaks of every state of every run. A compare-and-swap that fails changes nothing. Positions
that the code keeps in 64 bits are unbounded, since overflow is excluded by contract; positions and counters
kept in 32 bits are unbounded ghost numbers of which the code sees only the words. The limits on use that
the documentation states (no observation spans a full 32-bit cycle, no cache lags a cycle less the capacity)
are guards of the steps that rely on them. SQL tables are maps, a transaction is a change that either
happens as a whole or does not, and the entry digest, the handler, the retry policy, the clock and abort
signals are parameters.

Where the code and its documentation differ the code is followed, and the exact condition is proved.

- `ring/frontier/options.go` makes two promises. The first is that no call fails or moves fewer elements because
  of a stale count. In the multi-producer multi-consumer queue it holds of every single and burst transfer. A bulk
  transfer can be refused although there is enough to take from its first step to its last, if another caller of
  its side reserves meanwhile; in every queue, this can happen if and only if it asks for more than one element
  and less than a whole lap (`FrontierStale.RefusalsHonestIff`).
- The second promise is that a refused call, a short burst and a zero-length call return a fresh count. It holds of
  every single transfer and of every burst of at least one element, which if short leaves nothing. For any other
  request, a bulk transfer of more than one element up to and including a whole lap or a zero-length call, it
  holds in a queue of one or two slots and in no larger one: there the call can report one although all but one of
  a lap is there from its first step to its last (`FrontierStale.StaleReport`, `FrontierStale.ReportsFreshIff`).
  With the head unmoved the count is fresh for every request (`FrontierTheorems.ReportIsFresh`), and a reported
  zero always is (`FrontierTheorems.HonestZero`). The zero is all that the wake protocol takes from a peek: a low
  count wakes fewer calls, and those that wake pass it on.
- `ring/dpdk/mpmc.go` allows a head observation to last for anything short of a complete position cycle. That is too
  long by the capacity. A producer that stalls between its head load and its decision while others move the head by a
  cycle less the capacity, or more, can be refused although there was room from its first step to its last; below
  that, or in a queue of one slot, every refusal is honest. Both directions are `DpdkStall.RefusalsHonestIff`.
- A cleanup whose Receive fails with anything but closure would leave occurrences in the queue; the queue owes it
  no such error, and conservation is stated with and without it.
- A runner that was not aborted can still abandon work: a handler may report an item as interrupted with a
  marker made from any cancelled context. These are then exactly the abandoned items
  (`RunnerTheorems.Conservation`, `RunnerProgress.InterruptedRun`).
- The counts that `register` and `enlist` keep in the side word are exact only below 2^31
  (`SideWord.RegisterWord`, `SideWord.ParkOverflow`); `WakeWord.WordIsExact` gives the number of calls that
  keeps them there.
- The wake target is the least number of receive batches that covers what is visible, capped.

`dafny verify dfyconfig.toml` checks everything.

## Model

| member | source | states |
|---|---|---|
| Lanes.SlotIsMasked | ring/frontier/mpmc.go:417-420 | masking the low 32 bits picks the slot of the 64-bit position whenever the slot count divides 2^32 |
| Lanes.ReserveKeeps | ring/frontier/mpmc.go:284-317 | a reservation within a lap of the reusable position keeps the tiling of positions, the records and the frontier of its side |
| Lanes.FinishKeeps | ring/frontier/mpmc.go:455-463 | storing an interval's end at its start slot overwrites no record that can still be needed |
| Lanes.RaiseKeeps | ring/frontier/mpmc.go:405-413 | raising the frontier to a proved boundary keeps everything below it finished |
| Lanes.AcceptedRecord | ring/frontier/records.go:14-21 | lap rejection: a record accepted at boundary b was stored by the interval that starts exactly at b, never by an earlier or later lap |
| Lanes.AcceptedEnd | ring/frontier/records.go:22-47 | following an accepted record from a proved boundary reaches a proved boundary |
| Lanes.RefusedRecord | ring/frontier/records.go:14-47 | a record refused at a boundary still in use means that its interval is unfinished |
| Lanes.Covered | ring/frontier/mpmc.go:284-317 | every reserved position lies in an interval of the tiling |
| Records.ChainIsPath | ring/frontier/records.go:22-47 | chained discovery ends where a path of accepted records leads |
| Records.ChainIsFurthest | ring/frontier/records.go:22-47 | no path of accepted records from the same start goes further |
| Records.AheadIsChained | ring/frontier/records.go:49-84 | accepting predicted records is a stretch of the chained walk |
| Records.DiscoverRecordsAhead | ring/frontier/records.go:59-84 | the multi-lane loop returns the boundary chained discovery returns, for every record array, window, frontier and stop bound, and terminates |
| Records.DiscoverRecords | ring/frontier/records.go:22-47 | the whole discovery loop equals following records one at a time |
| Discovery.StepKeeps | ring/frontier/mpmc.go:375-413 | every step of a concurrent advance keeps a proved end within its window, whatever other callers do between steps |
| Discovery.AheadProven | ring/frontier/records.go:59-84 | records loaded ahead at different times still prove the boundary they lead to |
| Discovery.StepHonest | ring/frontier/mpmc.go:375-413 | wherever an advance ends, at a refused record or at its bound, no more than that was usable at an instant of the advance, while the slots it looks at are not in use for a later lap |
| Discovery.RefusedAtEnd | ring/frontier/records.go:14-47 | a record refused within a lap of the head shows an interval not finished at that instant |
| FrontierInvariant.AdmitsExactly | ring/frontier/mpmc.go:284-371 | the 64-bit difference of a possibly stale head admits exactly the room that is there |
| FrontierInvariant.ReservedLanes | ring/frontier/mpmc.go:284-371 | a successful head swap fits the other side's frontier, so no live slot is reserved twice |
| FrontierInvariant.ScanProves | ring/frontier/mpmc.go:375-413 | what an advance returns is proved on the other side |
| FrontierSafety.CallsApart | ring/frontier/mpmc.go:417-451 | two calls inside intervals never touch the same slot at the same time |
| FrontierSafety.InsideNotWaiting | ring/frontier/mpmc.go:417-451 | no slot a producer fills still holds a value waiting to be read |
| FrontierSteps.WriteValues | ring/frontier/mpmc.go:417-428 | writing one slot keeps every value in place between producer and consumer |
| FrontierSteps.ReadValues | ring/frontier/mpmc.go:432-451 | reading one slot yields the value enqueued at that position and disturbs no other |
| FrontierSteps.PublishValues | ring/frontier/mpmc.go:455-463 | storing a record loses no value in flight |
| FrontierSteps.ReserveValues | ring/frontier/mpmc.go:265-371 | a reservation extends the inputs and loses no value in flight |
| FrontierTheorems.NextKeeps | ring/frontier/mpmc.go:265-463 | every step of every caller keeps the invariant over positions, records, slots, values and callers |
| FrontierTheorems.RunInv | ring/frontier/mpmc.go:265-463 | the invariant holds in every state of every run |
| FrontierTheorems.PositionsOrdered | ring/frontier/mpmc.go:284-413 | released <= consumer head <= completed <= producer head <= released + capacity in every state, and each of the four is monotone |
| FrontierTheorems.Fifo | ring/frontier/mpmc.go:265-463 | a value read at a position is the value enqueued at it; a returned dequeue carries exactly the inputs of its interval; neither is ever rewritten |
| FrontierTheorems.OutputsArePrefix | ring/frontier/mpmc.go:319-371 | outputs in reservation order are exactly the first inputs: no loss, duplicate or reordering |
| FrontierTheorems.NothingHeldBack | ring/frontier/mpmc.go:375-399 | with no call inside an interval, every reservation is provably finished up to the head |
| FrontierInvariant.ScanCounts | ring/frontier/mpmc.go:375-413 | while the caller's head is still the head of its side, every step of its advance keeps the least amount met so far at or below where the advance ends |
| FrontierTheorems.FewestInstant | ring/frontier/mpmc.go:284-371 | the least amount a call has met was there to take at an instant while that very call ran |
| FrontierTheorems.HonestZero | ring/frontier/mpmc.go:131-163 | a single or burst transfer that moves nothing, and any peek, Count or bulk transfer that reports nothing, met while it ran an instant with no completed unreserved value or no released slot |
| FrontierTheorems.MovedIsFresh | ring/frontier/options.go:74-84 | a transfer that moves fewer than asked, or is to return exact counts, met while it ran an instant with no more than it moved and left, whatever other callers do; a short burst leaves nothing and a bulk transfer is all or nothing |
| FrontierTheorems.ReportIsFresh | ring/frontier/mpmc.go:284-371 | a transfer, peek or Count that moves nothing reports no less than what there was at an instant while it ran, unless another call of its side reserved since its head load; a refused bulk transfer reports fewer than it asked for. The bound from above is `FrontierQuiet.ReportIsThere`, and the two meet in `FrontierQuiet.QuietAnswer` |
| FrontierQuiet.ReportIsThere | ring/frontier/mpmc.go:87-99 | no report is too high: in every run what a call has moved and reports lies within what the opposite frontier admits, and with the head where the call left it all it reports is there |
| FrontierQuiet.QuietAnswer | ring/frontier/mpmc.go:87-371 | a call during which no other call steps, whatever others are in the middle of, answers as a bounded queue: a Count, a peek and a refused bulk transfer report exactly what there is, and any other transfer moves all it asked for or all there is, from the front |
| FrontierProgress.NoCallWaits | ring/frontier/mpmc.go:265-413 | in every state of every run, whatever the other calls are in the middle of, each call returns if it runs alone: no call waits for another |
| FrontierClearing.DequeueClears | ring/frontier/mpmc.go:432-451 | with clearing on, a dequeue has left zeros in its whole interval before it releases it, whatever others do |
| FrontierClearing.NothingKept | ring/frontier/mpmc.go:432-451 | with clearing on and no consumer inside an interval, every slot is zero except those of the positions between the heads |
| FrontierBulk.WholeLapHonest | ring/frontier/mpmc.go:284-371 | a refused bulk transfer of a whole lap met an instant with less than a lap to take, even if others reserved meanwhile |
| FrontierStale.StaleReport | ring/frontier/options.go:74-84 | for every capacity above two, both sides and every peek, Count and bulk transfer of two up to a whole lap, with or without exact counts, a run in which the call moves nothing and reports one although all but one of a lap is there from its first step to its last |
| FrontierStale.StaleRefusal | ring/frontier/options.go:74-84 | for every capacity, both sides and every request of more than one and less than a lap, a run in which the bulk transfer is refused, reporting one, although there is enough from its first step to its last |
| FrontierStale.RefusalsHonestIff | ring/frontier/options.go:78-80 | no call fails on a stale count: every refused bulk transfer of a size met an instant with fewer than that to take, in every run, if and only if the size is one or the whole capacity |
| FrontierStale.ReportsFreshIff | ring/frontier/options.go:80-84 | a call that moves nothing returns a fresh count: in every run every such call of a request met an instant with no more to take than it reports, if and only if the request is a single transfer or a burst, or there are at most two slots |
| SlotCopy.SlotOfPosition | ring/frontier/mpmc.go:417-428 | the i-th position of an interval has the i-th slot, wrapped once, and no other place below a lap has it |
| SlotCopy.ReadWritten | ring/frontier/mpmc.go:417-451 | what was written to an interval is read from it after any number of writes to the rest of the lap |
| FrontierCopies.StepsWrite | ring/frontier/mpmc.go:417-428 | the slot steps of a producer's copy together are the two-part copy, and change nothing else |
| FrontierCopies.StepsRead | ring/frontier/mpmc.go:432-451 | the slot steps of a consumer's copy together are the two-part copy |
| FrontierCopies.StepsClear | ring/frontier/mpmc.go:432-451 | the steps that clear an interval together leave zeros in exactly its slots |
| SlotCopy.ReadOther | ring/frontier/mpmc.go:417-451 | writing an interval leaves every other interval within the lap as it was |
| SlotCopy.WriteProducer | ring/frontier/mpmc.go:417-428 | the two-part copy puts every item at its own slot and changes no other slot |
| SlotCopy.ReadConsumer | ring/frontier/mpmc.go:432-451 | the two-part copy returns the items in order and clears exactly their slots when clearing is on |
| ObserverCount.AcquiredExact | ring/frontier/mpsc_base.go:91-96 | the acquired count taken from two 32-bit halves is the true one |
| ObserverCount.RebuiltCursor | ring/frontier/mpsc.go:65-85 | the 64-bit cursor rebuilt from a head and 32 bits is the true released position, and the early exits for a bad distance are never taken |
| ObserverCount.DiscoverKeeps | ring/frontier/mpsc_base.go:369-407 | the consumer's own discovery moves its frontier only to proved boundaries |
| ObserverCount.ScanTurn | ring/frontier/mpsc.go:86-107 | following records past a stale cursor still only reaches proved boundaries within the capacity |
| ObserverCount.StepInv | ring/frontier/mpsc.go:55-126 | every step of producers, consumer and observers keeps the invariant |
| ObserverCount.RetainedProven | ring/frontier/mpsc.go:122-126 | the retained position is always a reservation boundary with everything below it completed |
| ObserverCount.RetainedMonotone | ring/frontier/mpsc.go:122-126 | the retained position never decreases |
| ObserverCount.CountBounded | ring/frontier/mpsc.go:110-120 | every returned count is at most the capacity |
| ObserverCount.CursorExact | ring/frontier/mpsc.go:65-85 | in every reachable state an observer scans from the released position it loaded |
| ObserverCount.UnchangedCountsFinished | ring/frontier/mpsc.go:110-126 | a count that finds the consumer unchanged counts finished, unreleased positions only |
| ObserverQuiet.QuietCount | ring/frontier/mpsc.go:55-126 | a Count during which nothing else steps returns exactly the positions from the released one on that are finished with nothing unfinished before them |
| ObserverQuiet.QuietReturns | ring/frontier/mpsc.go:55-126 | a Count that runs alone returns, from every state that satisfies the invariant, under the documented limit on its head load |
| Words32.PackRoundTrip | ring/dpdk/ring.go:24-36 | position and counter come back from the packed word |
| Words32.UnpackRoundTrip | ring/dpdk/ring.go:24-36 | every 64-bit word is the pack of its two fields |
| Words32.NextTailExact | ring/dpdk/ring.go:116-123 | the next tail word is right across counter and position rollover: no carry, and the counters meet as words exactly when they meet as numbers |
| Words32.Lap | ring/dpdk/ring.go:107-111 | differences of words are true differences below a full cycle |
| Words32.AdmissionExact | ring/dpdk/mpmc.go:345-363 | wrapping admission decides exactly as unbounded admission while the observed position lags by less than a cycle less the capacity |
| DpdkTheorems.GrantedFits | ring/dpdk/mpmc.go:340-380 | what a reservation takes at the true head fits the true room, whatever stale cache it decided on |
| DpdkTheorems.ReservedTurn | ring/dpdk/mpmc.go:364-380 | a successful head swap on equal words was made at the true head |
| DpdkTheorems.OrderedTurn | ring/dpdk/mpmc.go:404-407 | an ordered publisher that sees its start as the published word is the first unpublished one |
| DpdkTheorems.TailMeets | ring/dpdk/ring.go:127-139 | when counters meet, everything up to the loaded head has finished, because the tail was loaded before the head |
| DpdkTheorems.FewUnfinished | ring/dpdk/ring.go:116-123 | unfinished reservations never outnumber the positions past the tail, so counters cannot alias |
| DpdkTheorems.RelaxedTurn | ring/dpdk/ring.go:116-139 | the relaxed tail update decided on packed words counts exactly its own reservation and moves the tail only over finished ones |
| DpdkTheorems.RaiseTurnOk | ring/dpdk/ring.go:146-157 | raising the mirror never moves it backward or past the tail, and the raiser of the latest move does not give up early |
| DpdkTheorems.TurnKeeps | ring/dpdk/mpmc.go:320-542 | every step of every call keeps its side, its call and its duties |
| DpdkTheorems.RunInv | ring/dpdk/mpmc.go:320-542 | the invariant holds in every state of every run |
| DpdkTheorems.PositionsOrdered | ring/dpdk/mpmc.go:320-542 | released <= consumer head <= published <= producer head <= released + capacity in every state |
| DpdkTheorems.NeverPastUnfinished | ring/dpdk/ring.go:116-157 | neither tail nor mirror ever passes an unfinished reservation |
| DpdkTheorems.TailsMonotone | ring/dpdk/ring.go:127-157 | tails and mirrors never move backward |
| DpdkTheorems.QuiescentMeets | ring/dpdk/mpmc.go:409-414 | with no operation of a side under way, mirror, tail and head positions coincide |
| DpdkTheorems.OrderedPublishes | ring/dpdk/mpmc.go:404-407 | in ordered mode the published position is the start of the first unpublished reservation |
| DpdkTheorems.ReservationFits | ring/dpdk/mpmc.go:320-380 | a reservation that succeeds starts at the true head and takes exactly the smaller of the request and the room at the position it observed, never more than the true room, and all of a fixed request |
| DpdkRefusals.TakesWhatThereIs | ring/dpdk/mpmc.go:320-500 | a reservation takes all it asks for, or it is a burst and takes exactly all there was at an instant while the call ran |
| DpdkRefusals.RefusalIsHonest | ring/dpdk/mpmc.go:320-500 | a refused call met an instant while it ran with nothing to take, or for a fixed request fewer than asked, if no head is held for a cycle less the capacity or there is one slot |
| DpdkStall.StallRefused | ring/dpdk/mpmc.go:48-53 | for every capacity above one, a run within the documented limits in which a burst of one is refused although there is room from its first step to its last |
| DpdkStall.RefusalsHonestIff | ring/dpdk/mpmc.go:48-53 | in every run in which no head is held for a given number of positions every refusal is honest, if and only if that number and the capacity together are at most a cycle, or there is one slot |
| DpdkDistance.KeepsDistance | ring/dpdk/ring.go:78-111 | in every run each reservation on a relaxed side starts within the caller's distance of the tail at that very instant, and ends within that distance and one request of it |
| DpdkProgress.AloneAnswered | ring/dpdk/mpmc.go:320-500 | a call that may reserve, from every reachable state, has reserved or is refused after finitely many steps of its own |
| DpdkProgress.AlonePublishes | ring/dpdk/mpmc.go:396-414 | a call that has reserved publishes by its own steps, on a relaxed side always and on an ordered side when it is in turn |
| DpdkProgress.SomeoneInTurn | ring/dpdk/ring.go:72-79 | while an ordered side has unpublished reservations some call is in turn, so waiting for the tail never locks everyone out |
| DpdkTheorems.DistanceExact | ring/dpdk/ring.go:107-111 | the distance check compares the true distance of a tail and a later head, so it never waits spuriously |
| DpdkHeadFirst.HeadFirstFails | ring/dpdk/ring.go:129-135 | a run in which two calls work on their reservations throughout; with the head loaded early in it and the tail at its end, the first call would move the tail past the unfinished reservation of the second |
| SideWord.FieldsOfWord | workq/waitside.go:10-23 | the three fields come back from the packed word if and only if both counts are below 2^31 |
| SideWord.TransferWord | workq/waitside.go:368-374 | moving k counts between the fields borrows and carries nothing while both stay in range |
| SideWord.RegisterWord | workq/waitside.go:83-97 | registering adds one poller if and only if fewer than 2^31 - 1 are counted; past that the count reads zero and the word is no longer well formed |
| SideWord.ParkOverflow | workq/waitside.go:222-268 | parking past the limit of the parked count carries into the closed flag |
| SideWord.LeaveWord | workq/waitside.go:197-208 | dropping a registration borrows from no other field |
| SideWord.UnparkWord | workq/waitside.go:310-319 | dropping a parked count borrows from no other field |
| SideWord.CloseWord | workq/waitside.go:328-338 | setting the flag leaves both counts alone |
| WaitSide.Side.Register | workq/waitside.go:83-97 | one more poller unless closed, for every count; the representation stays valid if and only if the count had room |
| WaitSide.Side.LeavePolling | workq/waitside.go:197-208 | one poller less, and the word left is what cleanup decides on |
| WaitSide.Side.SetClosed | workq/waitside.go:328-338 | closed for good, with both counts kept, and the first closer is told |
| WaitSide.Side.Unlink | workq/waitside.go:164-178 | the doubly linked list is the old one without the waiter, which ends with no links |
| WaitSide.Side.RemoveForWake | workq/waitside.go:156-160 | the oldest waiter is removed |
| WaitSide.Side.Enlist | workq/waitside.go:222-268 | the caller moves from pollers to the chosen end of the list, or nothing changes when closed; the list is right for every count, and the word if and only if the parked count had room |
| WaitSide.Side.Link | workq/waitside.go:249-267 | linking at either end keeps the list well formed |
| WaitSide.Side.WakeGroup | workq/waitside.go:343-396 | exactly the oldest waiters that fit under the target lose their place, gain a token and are counted as pollers; pollers never pass the target |
| WaitSide.Side.SendTokens | workq/waitside.go:380-393 | each unlinked waiter gets exactly one token, in list order |
| WaitSide.Side.WakeOne | workq/waitside.go:125-151 | one waiter is woken if and only if no poller is registered and one is parked |
| WaitSide.Side.LeaveList | workq/waitside.go:293-323 | a listed caller leaves the list and its count; a selected one takes its token and drops its registration |
| WakeInvariant.SelectKeeps | workq/waitside.go:380-393 | unlinking one more waiter of a group keeps counts, list and tokens in step |
| WakeInvariant.SendKeeps | workq/waitside.go:382-392 | a token is sent only to a waiter that holds none and is out of the list |
| WakeInvariant.TransferKeeps | workq/waitside.go:368-374 | the counts may run ahead of the list only by the waiters still to be unlinked |
| WakeInvariant.LinkKeeps | workq/waitside.go:249-268 | linking a parked call makes counts and list meet again |
| WakeInvariant.UnlinkKeeps | workq/waitside.go:293-323 | a parked call that leaves takes itself out of the list once |
| WakeTheorems.DutyKept | workq/waitside.go:83-396 | a step that meets its own duty to wake touches no other call's duty |
| WakeTheorems.TakerInv | workq/wait.go:135-219 | every step of parking and leaving keeps the invariant; what the call is told in the end is pinned by `WakeResults.ResultsTrue` |
| WakeTheorems.WakerInv | workq/consumer_wake.go:39-75 | every step of cleanup and of a group wake keeps the invariant |
| WakeTheorems.SupplierInv | workq/consumer_wake.go:16-35 | every step of a supplier and of Close keeps the invariant |
| WakeTheorems.StepInv | workq/waitside.go:83-396 | every step of every call keeps the invariant over word, list, tokens, duties, closure and supply |
| WakeTheorems.RunInv | workq/waitside.go:83-396 | the invariant holds in every state of every run |
| WakePromises.NoPanic | workq/waitside.go:125-396 | no panicking branch is reachable: no count below zero, no wake target or transfer past the count limit, no missing waiter, no second token |
| WakePromises.SomeoneAttends | workq/wait.go:169-219 | while supply is visible and a call is parked without a token, some awake call polls, owes a look or a wake, or is giving one |
| WakePromises.NoLostWakeup | workq/wait.go:135-219 | when every call has returned or sleeps, no call sleeps while supply is visible, and nothing accepted is hidden |
| WakePromises.NoDeadlock | workq/wait.go:135-237 | if the mutex is held its holder can step, and if it is free each call that is not asleep can, and the step takes that call to another point |
| WakePair.MoveInv | workq/engine.go:8-15 | a step of either side keeps both invariants and loses nothing between the sides: what one side takes the other is offered |
| WakePair.CapacityKept | workq/queue.go:102-126 | in every run, items and room, visible, hidden or under way, make up the capacity |
| WakePair.NotBothAsleep | workq/wakeup.md:297-330 | in every run, with every call asleep or returned and no engine call under way, a consumer and a producer are never both parked |
| WakeWord.CountsBounded | workq/waitside.go:10-35 | pollers and parked together never exceed the calls under way |
| WakeWord.WordStep | workq/waitside.go:83-396 | every step of every call changes the packed word by exactly the addition or subtraction the code makes |
| WakeWord.WordIsExact | workq/waitside.go:10-396 | in every run with fewer than 2^31 calls at a time the counts and the flag are the fields of one 64-bit word, and no step carries or borrows between fields |
| WakeResults.ResultsTrue | workq/wait.go:135-237 | in every run a call is told that it received something if and only if it took something; told canceled or stopped, it has given up; told of the end, refused or closed, the side is closed |
| WakeResults.NothingLost | workq/wait.go:135-237 | in every state, what was ever taken is what ended calls were told they received plus what the calls under way hold |
| WakeResults.ClosureWins | workq/wait.go:196-219 | a parked call that gives up after closure is never told that it was canceled: it drains, and receives something or learns of the end |
| WakeOrder.NoOvertaking | workq/waitside.go:125-178 | while a call waits in the list no wake selects one behind it |
| WakePromises.CountsExact | workq/waitside.go:125-396 | with the mutex free, pollers are the registered calls and parked is the list's length |
| WakePromises.OnePlace | workq/waitside.go:125-323 | a waiting call is listed, or holds its one token, or is about to be sent it, and never two of these |
| WakePromises.TargetCovers | workq/consumer_wake.go:5-12 | the target is the least number of takers whose batches cover what is available, or the cap |
| WakePromises.WakesEnough | workq/consumer_wake.go:16-59 | after a publication a supplier that finds takers parked wakes if and only if none polls or those polling do not cover what it sees, a leaving call if and only if those polling do not cover it, and either aims at the least number that does |
| WakePromises.GroupBounded | workq/waitside.go:343-396 | a group wake conserves calls, reaches its target or empties the list, and never raises pollers above target or cap |
| WakePromises.CloseReleases | workq/queue.go:154-171 | once closed and the mutex free, every parked call has an exit |
| WakePromises.ClosedRun | workq/queue.go:154-171 | closure is for good, and unless a supplier was under way nothing more is accepted or shown |
| WakePromises.EndOfStream | workq/wait.go:222-237 | a taker told that the closed queue is empty implies that everything accepted has been acquired, then and ever after, when no supplier overlaps Close |
| DurableTables.BytesWithout | workq/durable/validation.go:296-302 | the payload sum does not depend on the order rows are taken in |
| DurableTables.ValidatorExact | workq/durable/validation.go:207-336 | counting payloads is enough: the validator accepts exactly the states where payloads belong to pending receipts and nothing else |
| DurableValidator.CountProducers | workq/durable/validation.go:207-248 | the producer pass with its running limit succeeds if and only if every row is well formed and the table fits, with the true counts |
| DurableValidator.CountReceipts | workq/durable/validation.go:249-321 | the receipt pass succeeds if and only if every receipt agrees with producer, token and payload and the totals fit, with the true counts |
| DurableValidator.Validate | workq/durable/validation.go:40-49 | the validator accepts a store if and only if it is sound |
| DurableCommands.InsertKeeps | workq/durable/submit.go:190-211 | storing a new entry keeps every relation of the store but the limits; what is stored is pinned by `DurableEffects.SubmitMeans` |
| DurableCommands.AcceptKeeps | workq/durable/submit.go:124-188 | a batch of submissions keeps them, identical retries changing nothing |
| DurableCommands.AckKeeps | workq/durable/ack.go:109-171 | acknowledging keeps the store sound and never runs into a storage fault |
| DurableCommands.BarrierKeeps | workq/durable/retire.go:45-104 | raising a floor keeps the store sound: everything at or below it is acknowledged and marked |
| DurableEffects.SubmitMeans | workq/durable/submit.go:124-211 | on a sound store a batch is applied if and only if no entry is at fault and all of it fits, else it fails with the error of the first entry at fault or of the capacity; applied, every new entry has its payload, its digest, a pending receipt and the next order in batch order and is waiting, the counts grow by exactly these, and every other identity is as it was |
| DurableEffects.SubmitAgain | workq/durable/submit.go:131-181 | submitting an applied batch again is applied and changes nothing |
| DurableEffects.AckMeans | workq/durable/ack.go:109-171 | on a sound store an acknowledgement is applied if and only if each token is of the current attempt of its identity or the one that completed it, else it is stale; applied, each token completes its identity, whose payload goes, and nothing else changes |
| DurableEffects.RetireMeans | workq/durable/retire.go:45-104 | on a sound store a retirement is refused if and only if it needs a producer row too many or something up to it waits; applied, exactly the identities up to it become retired, and every other status, receipt and payload stays |
| DurableCommands.ExecuteKeeps | workq/durable/group.go:122-156 | every command that succeeds keeps the store sound |
| DurableCommands.CleanKeeps | workq/durable/cleanup.go:57-120 | every cleanup turn keeps the store sound |
| DurableCommands.CleanProgress | workq/durable/cleanup.go:57-120 | every cleanup turn removes a receipt or a marker, so cleanup ends |
| DurableExecution.SameCheck | workq/durable/submit.go:124-188 | checking an entry against the tables at the batch's start tells the same as checking it after the entries before it |
| DurableExecution.OrdersCountBack | workq/durable/group.go:129-141 | numbering back from the last order gives every new entry the order it would get one by one |
| DurableExecution.CountFreshAfter | workq/durable/submit.go:114-122 | the loop counts the new entries after an index |
| DurableExecution.AckOnly | workq/durable/ack.go:109-171 | acknowledging tokens completes exactly the pending identities their claims name |
| DurableQueue.Queue.CheckEntry | workq/durable/submit.go:131-181 | one entry of the first pass adds up metadata exactly as storing it would, counting a new producer once |
| DurableQueue.Queue.ValidateStoredSubmit | workq/durable/submit.go:124-188 | the first pass fails with the error the batch would meet one by one, or returns its metadata and its new entries |
| DurableQueue.Queue.InsertFresh | workq/durable/group.go:129-142 | the second pass leaves the tables as one-by-one submission would |
| DurableQueue.Queue.ApplySubmit | workq/durable/group.go:129-143 | two passes over a batch mean its entries one by one, all or nothing, which is what `DurableEffects.SubmitMeans` spells out |
| DurableQueue.SameAck | workq/durable/ack.go:109-156 | another token for an identity completed in the same batch is stale in either order of checking |
| DurableQueue.Queue.ValidateAck | workq/durable/ack.go:109-156 | the first pass fails with the error the tokens would meet one by one, or returns the counts they leave |
| DurableQueue.Queue.ApplyAck | workq/durable/ack.go:158-171 | the second pass leaves the tables as one-by-one acknowledgement would |
| DurableQueue.Queue.ApplyRetirement | workq/durable/retire.go:45-104 | a floor at or below the current one changes nothing; pending work or a full table refuses; else the barrier is set |
| DurableQueue.Queue.ApplyCommand | workq/durable/group.go:122-156 | a command does to tables and metadata what it means, and leaves no trace when rejected |
| DurableQueue.Queue.ExecuteGroup | workq/durable/group.go:172-249 | the group loop yields the store, decisions and claims that the commands mean in order, and a sound store |
| DurableQueue.FirstRows | workq/durable/cleanup.go:76-101 | the first keys in order up to the limit are chosen |
| DurableQueue.Queue.DeleteRetiredReceipts | workq/durable/cleanup.go:57-120 | one turn deletes the first retired receipts of the first marked producer and clears its marker exactly when none is left |
| DurableQueue.GroupKeeps | workq/durable/group.go:172-249 | a group of any mix of commands keeps the store sound |
| DurableGroups.ExecuteOnward | workq/durable/group.go:122-156 | no command lowers a status, changes an acknowledged token or completes anything but through its current claim |
| DurableGroups.SameAcks | workq/durable/ack.go:119-141 | claims dropped late decide nothing, since their identities are completed already |
| DurableGroups.GroupIsSequential | workq/durable/group.go:172-249 | a committed group gives the same store, claims and decisions as its commands run one by one |
| DurableGroups.GroupOnward | workq/durable/group.go:172-249 | a group lowers no status and completes only through claims |
| DurableSessions.CleanupStatus | workq/durable/cleanup.go:57-120 | cleanup changes no status |
| DurableSessions.StepInv | workq/durable/startup.go:149-158 | every step of a session, including reopening, keeps store, claims, tokens and completions in agreement |
| DurableSessions.AlwaysSound | workq/durable/validation.go:207-336 | every committed state of every run satisfies the startup validator |
| DurableSessions.StatusMonotone | workq/durable/lookup.go:50-90 | a status only moves from Absent over Pending and Acknowledged to Retired, over all runs and reopenings |
| DurableSessions.TokensDistinct | workq/durable/delivery.go:262-272 | no token is handed out twice, within a session or across epochs |
| DurableSessions.OneCompletion | workq/durable/ack.go:109-171 | at most one token ever completes an identity |
| DurableSessions.Fenced | workq/durable/ack.go:72-108 | a token that is no longer claimed never completes anything again |
| DurableSessions.ReleasedAndOldUnclaimed | workq/durable/ack.go:72-107 | released tokens and tokens of other epochs are not claimed, so they are fenced |
| DurablePayloads.PayloadKept | workq/durable/submit.go:190-211 | while an identity waits its receipt and payload stay the same, over commands, cleanups and reopenings |
| DurablePayloads.WaitingWasSubmitted | workq/durable/submit.go:190-211 | in every run everything that waits was submitted, with the very codec and body stored, by a command of an earlier commit |
| DurableProgress.NeverStuck | workq/durable/delivery.go:167-294 | from every state of every run with a session open, whatever was claimed, released or dropped before, a waiting identity can be completed within three steps that leave every other identity as it is |
| DurableProgress.Drains | workq/durable/ack.go:109-171 | from every such state with attempts left the whole queue can be drained: exactly what waited becomes acknowledged and no other status changes |
| DurableEncoding.DecodeEncode | workq/durable/encoding.go:34-45 | a number comes back from its big-endian bytes |
| DurableEncoding.EncodeDecode | workq/durable/encoding.go:34-45 | bytes come back from the number they spell |
| DurableEncoding.EncodeOrder | workq/durable/encoding.go:34-45 | byte order of encodings is numeric order, both ways |
| DurableEncoding.DecodeEncodeID | workq/durable/encoding.go:54-69 | an identity comes back from its key |
| DurableEncoding.EncodeDecodeID | workq/durable/encoding.go:54-69 | every 24-byte key is the key of its identity |
| DurableEncoding.KeyOrder | workq/durable/encoding.go:54-59 | keys compare by producer, then by sequence |
| DurableEncoding.KeyRange | workq/durable/retire.go:74-86 | the key range queried for a floor holds exactly the producer's identities up to it |
| DurableEncoding.TokenFields | workq/durable/encoding.go:71-79 | the slices that acknowledgement reads are the token's fields, and equal bytes are equal tokens |
| DurableAdmission.LegalFits | workq/durable/config.go:103-141 | with an accepted configuration every legal command fits its pool, and alone fits a group |
| DurableAdmission.ChargeCovers | workq/durable/accounting.go:7-80 | what is reserved for a command covers what the command keeps twice over, whatever the command |
| DurableAdmission.Measure | workq/durable/group.go:40-52 | the work of a command is added up exactly and within 64 bits |
| DurableAdmission.NoGaps | workq/durable/coordinator.go:13-28 | the next selected command carries the very next sequence, and one is found whenever one was handed over |
| DurableAdmission.AdmissionPool.Reserve | workq/durable/admission.go:114-167 | a slot is taken if and only if the budget has room and one is free; retention stays the sum of used charges within the budget |
| DurableAdmission.AdmissionPool.Clear | workq/durable/admission.go:169-173 | the charge is given back without underflow |
| DurableAdmission.Admission.Reserve | workq/durable/admission.go:114-167 | cancellation or a closed gate refuses, an over-large charge never fits, a slot is taken if and only if there is room and one free; a legal command is never too large |
| DurableAdmission.Admission.Fill | workq/durable/submit.go:28-33 | the owner of a reserved slot puts a legal command there, and nothing else changes |
| DurableAdmission.Admission.Handoff | workq/durable/admission.go:175-193 | the command becomes the last in the handoff order with its other fields kept; cancellation, a closed gate or the last sequence refuses and changes nothing |
| DurableAdmission.Admission.Admit | workq/durable/submit.go:18-43 | a whole call hands over exactly its legal command, gives its slot back when refused, and with nothing else in use always succeeds |
| DurableAdmission.Admission.Abandon | workq/durable/admission.go:195-222 | giving up on a command only marks it, and it is still executed in turn |
| DurableAdmission.Admission.NextAfter | workq/durable/coordinator.go:13-28 | the search over both pools finds the live command with the least later sequence, or none |
| DurableAdmission.GatheredKept | workq/durable/group.go:100-117 | a gapless run of mutations stays one, in the same places with the same work, while callers reserve, fill, hand over, give up and collect |
| DurableAdmission.Admission.Others | workq/durable/group.go:100-117 | whatever callers do while the coordinator has released the mutex, live commands keep their places, sequences and work, and nothing is executed |
| DurableAdmission.Admission.CollectTurn | workq/durable/group.go:75-117 | one turn of collection adds the very next command, waits with the mutex released, or stops for its reason, and keeps the group within the limits |
| DurableAdmission.Admission.CollectGroup | workq/durable/group.go:56-119 | a group is a gapless run of mutations in handoff order within all three limits, however commands arrive during the delay; it ends only when full, at an abort, at a command it excludes, with none left and none to wait for, or when a configured delay is over; the unsigned differences never underflow |
| DurableAdmission.Admission.Choose | workq/durable/coordinator.go:58-148 | the coordinator waits if and only if everything handed over is executed, runs the next mutations as a group only when neither aborting nor in maintenance, also after the delay, rejects the next command exactly in an abort or as a mutation in maintenance, and else executes it |
| DurableAdmission.Admission.FinishGroup | workq/durable/coordinator.go:119-126 | finishing a group finishes its commands in handoff order, each in turn |
| DurableAdmission.Admission.Finish | workq/durable/coordinator.go:226-250 | commands finish in handoff order and let go of their inputs, and an abandoned one gives its slot back |
| DurableAdmission.Admission.Collect | workq/durable/admission.go:195-203 | collecting a finished command frees its slot and disturbs no order |
| DurableBudget.CheckedIsExact | workq/durable/accounting.go:20-32 | checked arithmetic is exact arithmetic, refused exactly when it leaves 64 bits |
| DurableBudget.AllocationIsExact | workq/durable/accounting.go:9-18 | the allocation charge is twice the size rounded up, refused exactly when that leaves its range |
| DurableBudget.SubmitCharge | workq/durable/accounting.go:34-61 | the checked loops give the exact charge whenever it fits |
| DurableBudget.LookupCharge | workq/durable/accounting.go:63-80 | the checked loop gives the exact charge whenever it fits |
| DurableBudget.MaximumSubmitCharge | workq/durable/accounting.go:82-113 | the search over batch sizes gives the least upper bound of their largest charges |
| DurableBudget.ValidateConfig | workq/durable/config.go:53-153 | a configuration is accepted if and only if policy, durability, ceilings, relations and tuning hold and the largest charge of every batch size fits |
| DurableBudget.DefaultsAccepted | workq/durable/config.go:17-45 | the default configuration is accepted with every valid policy and with no other |
| DurableBudget.SubmitCovers | workq/durable/accounting.go:34-61 | a submission's charge covers its bytes and records twice over, for every batch |
| DurableBudget.SubmissionFits | workq/durable/config.go:103-141 | every legal submission fits its pool and its group |
| DurableBudget.OthersFit | workq/durable/config.go:103-141 | every legal acknowledgement, lookup, release and retirement fits its pool and its group |
| DurableBudget.DeliveryFits | workq/durable/delivery.go:156-165 | every stored entry can be read and delivered within the configured buffers |
| DurableDelivery.DeliveryCovers | workq/durable/delivery.go:236-276 | a delivery's charge covers its payload and codec twice over |
| DurableDelivery.Deliveries.StartReading | workq/durable/delivery.go:236-276 | a claim is made if and only if its charge fits what is left, delivery goes on and attempts are left; retention stays the sum of the charges within the budget, so the difference never wraps; alone, a legal entry always fits |
| DurableDelivery.Deliveries.EndReading | workq/durable/delivery.go:277-294 | a read delivery joins the queue, which always has room, or its claim is given up |
| DurableDelivery.Deliveries.ClearClaim | workq/durable/delivery.go:47-55 | a claim's charge is given back without underflow |
| DurableDelivery.Deliveries.Receive | workq/durable/delivery.go:77-138 | a receiver acquires exactly the first waiting claims, in order |
| DurableDelivery.AcquiredOnce | workq/durable/delivery.go:77-138 | deliveries received together are of different identities, none acquired before, and none is handed out again |
| DurableDelivery.Deliveries.CurrentClaim | workq/durable/ack.go:82-92 | a token is current if and only if its identity is claimed, acquired and on that attempt |
| DurableDelivery.Deliveries.Release | workq/durable/ack.go:94-107 | a release frees exactly the claim its token is current for, and changes nothing if there is none |
| DurableDelivery.Deliveries.ReleaseAll | workq/durable/group.go:236-248 | an acknowledgement that has committed gives up exactly the claims its tokens are current for, and none of them is current any more |
| DurableDelivery.Deliveries.CloseQueue | workq/durable/delivery.go:30-45 | closing gives up exactly the claims that nobody has acquired |
| DurableDispatch.PassedKept | workq/durable/delivery.go:167-207 | rows that were served stay served while claims are only added |
| DurableDispatch.AckedFree | workq/durable/ack.go:109-150 | since an entry leaves the pending ones only when a current token acknowledges it, giving up the acknowledged claims leaves claims of pending entries only |
| DurableDispatch.Dispatcher.LoadRow | workq/durable/delivery.go:236-294 | the row is claimed or does not fit, whatever receivers do while it is read, or delivery has stopped; other claims are kept and every claim is for a pending row |
| DurableDispatch.Dispatcher.ScanRow | workq/durable/delivery.go:167-207 | one turn of the scan moves the cursor past one row, ends a round, or rests; it rests only without a free claim slot or after a second round in which every row was served |
| DurableDispatch.Dispatcher.Dispatch | workq/durable/delivery.go:167-207 | a call of the scan over the configured number of rows comes to rest, gets nearer to it, or ends with delivery stopped |
| DurableDispatch.Dispatcher.DispatchAll | workq/durable/coordinator.go:44-57 | no dispatch is lost: the scan comes to rest, and then every pending row is claimed or does not fit, or no claim slot is free, unless delivery has stopped |
| DurableDispatch.Dispatcher.Commit | workq/durable/coordinator.go:119-126 | after a commit exactly the acknowledged claims are given up, every claim left is for a row still pending, and the scan goes round again from where it was |
| DurableDispatch.Dispatcher.Release | workq/durable/coordinator.go:154-157 | a release that succeeds frees exactly its claim and makes the scan go round again, a refused one changes nothing |
| DurableDispatch.Dispatcher.Run | workq/durable/delivery.go:77-138 | receivers that take deliveries leave a scan at rest with nothing to dispatch |
| DurableBudget.ValidateSubmit | workq/durable/submit.go:49-95 | the front check accepts exactly the legal batches, charges them exactly, and never more than the pool |
| RunnerRetry.CompactCorrect | workq/runner/retry.go:199-210 | compaction permutes payloads and metadata in step, with exactly the due items in front |
| RunnerRetry.SomeDue | workq/runner/retry.go:25-51 | after waiting for the earliest item at least one item is due |
| RunnerRetry.KeptOrEnded | workq/runner/retry.go:69-97 | every item of a round is kept or ended, never both and never neither |
| RunnerRetry.AbandonedWhen | workq/runner/result.go:68-93 | a round abandons an item if and only if its valid answer is a marked interruption or, after an abort, unattempted; the outcome lacks an error exactly for an interruption without abort or earlier error |
| RunnerRetry.OutcomeWhen | workq/runner/retry.go:108-172 | an item succeeds if and only if a valid answer says so; fails, with that error, if and only if a valid answer says so or the answer is malformed; stays held if and only if it failed with an attempt to spare and the policy retries after no negative delay, and is then due that much after the clock |
| RunnerRetry.RoundUses | workq/runner/retry.go:108-172 | every item in a round uses one of its attempts or ends |
| RunnerRetry.SpareKept | workq/runner/retry.go:151-172 | an item is kept only with an attempt to spare |
| RunnerRetry.CompactKeeps | workq/runner/retry.go:199-210 | compaction changes neither the items nor the attempts left |
| RunnerHeld.TallyTotal | workq/runner/summary.go:77-95 | every terminal outcome is counted once under one of three states |
| RunnerHeld.TallyCounts | workq/runner/summary.go:77-95 | each counter is the number of terminal outcomes of its state |
| RunnerHeld.Held.CompactDue | workq/runner/retry.go:199-210 | the in-place swaps on both arrays are the compaction |
| RunnerHeld.Validate | workq/runner/result.go:53-66 | the check over positions accepts exactly the well-formed answers |
| RunnerHeld.Held.InvokeHeld | workq/runner/retry.go:108-149 | every due position is classified by its answer, or failed when the answer is malformed, and the rest is untouched; which answer gives which outcome is `RunnerRetry.OutcomeWhen` |
| RunnerHeld.Held.Settle | workq/runner/retry.go:69-97 | decided items are ended and counted once, the others close up in order, everything behind them and all outcomes are cleared, and nothing past the batch changes |
| RunnerHeld.Held.AbandonHeld | workq/runner/retry.go:181-196 | everything still held is ended as abandoned with its latest error, and the buffers are left clean |
| RunnerHeld.Held.RunRound | workq/runner/retry.go:62-97 | a round conserves items and strictly lowers the attempts left |
| RunnerHeld.Held.Process | workq/runner/retry.go:53-106 | a batch is processed to the end: each item gets one terminal outcome within its attempts, which is the one a round's answer decides or an abandonment at an abort, so that without an abort and with handlers that return no error every item succeeds after one attempt; the counters gain exactly these, nothing stays behind in the buffers, and the loop terminates whatever handler, policy and aborts do |
| RunnerHeld.Held.Work | workq/runner/worker.go:11-34 | over any number of batches on the same buffers every item received gets one terminal outcome, and the loop stops at the first abort it sees or error of Receive, with the buffers clean |
| RunnerLifecycle.AllEnded | workq/runner/summary.go:145-164 | when every occurrence has ended or is still queued, the counts and what is queued add up to all of them |
| RunnerTheorems.DecideEnded | workq/runner/worker.go:90-122 | a graceful join, or a cleanup that ran to closure, leaves nothing queued or held |
| RunnerTheorems.ErrorWorkers | workq/runner/worker.go:116-121 | a cleanup that ends on another error leaves nothing held, and what it leaves is still queued |
| RunnerTheorems.StepInv | workq/runner/lifecycle.go:30-96 | every step of submissions, workers, aborts and the coordinator keeps the invariant and undoes no outcome |
| RunnerTheorems.EndsOnce | workq/runner/worker.go:55-83 | an occurrence that has ended keeps its outcome for good |
| RunnerTheorems.Conservation | workq/runner/summary.go:40-62 | at Done each count is the number of occurrences that ended that way, and Accepted = Succeeded + Failed + Abandoned plus what a failed cleanup left queued, which is nothing if it did not fail, and then every occurrence has ended; without an abort the abandoned are as many as the occurrences reported interrupted, so some are if and only if some were |
| RunnerTheorems.StopsForGood | workq/runner/lifecycle.go:5-52 | after a stop, or an abort before completion, no submission is ever admitted again and the coordinator is under way, and the abort is never forgotten |
| RunnerProgress.InterruptedRun | workq/runner/adapters.go:50-56 | a run that completes without an abort and with an abandoned occurrence |
| RunnerProgress.ForwardEnabled | workq/runner/lifecycle.go:61-96 | after a stop or an abort, some step of the runner's own is enabled until it is done |
| RunnerProgress.ForwardLowers | workq/runner/lifecycle.go:61-96 | every such step brings the runner closer to done, whatever the schedule |
| RunnerProgress.Completes | workq/runner/lifecycle.go:61-96 | from every reachable state after a stop or an abort the runner's own steps lead to completion, within a bound given by that state |
| RunnerTheorems.AdmittedPushesOpen | workq/runner/runner.go:102-154 | no admitted push meets a queue its own runner has closed |
| RunnerTheorems.SummaryStable | workq/runner/lifecycle.go:75-96 | the final summary never changes, whatever aborts come late |

## Left out

- The 32-bit admission of MPSC producers (`ring/frontier/mpsc_base.go`): the same arithmetic as `Words32.AdmissionExact`; `ObserverCount` takes a reservation that fits as one step.
- `ring/frontier/spmc.go`, `ring/dpdk/mpsc.go`, `ring/dpdk/spmc.go`, `ring/dpdk/spsc.go`: single-owner forms of the modelled protocols.
- Slot contents in `ring/dpdk`: the positions and publication are modelled; the values move as in `ring/frontier`. The remaining counts its transfers return are not modelled.
- WakePromises.NoLostWakeup: the promises of one side are stated of that side alone, and `WakePair` joins the two; the call that takes on one side and supplies on the other is two calls, and a supplier waiting for the other side counts as asleep.
- WakePromises.EndOfStream: the drain attempt after closure is the consumers'; a producer that meets closure returns without one, which the step system covers as a call that gives up.
- Liveness of waking beyond these states: that an enabled step is eventually taken is left to the scheduler.
- Waiting in `reserve` and `await` and the instants of cancellation and of a closed gate: a caller's choice of when to call, and inputs of the steps.
- DurableAdmission.Admission.Choose: cleanup turns between commands, storage samples and checkpoints are not steps; they hand over and finish nothing.
- DurableDispatch.Dispatcher.LoadRow: the query for the next pending row is a search in the sequence of pending rows in acceptance order, and an order alone is the key, since orders are unique; a failed query, like a failed read, stops delivery.
- DurableSessions.StepInv: a transaction that fails or whose commit is unknown is a run that continues from the state before or after it by reopening; result reporting of failed groups (`fail`) is left out.
- SQLite itself, the write-ahead log, checkpoints, files, locks and the schema check: a transaction is applied or not.
- SHA-256: the digest is any function of codec and payload.
- RunnerHeld.Held.Process: the terminal callback runs as part of ending an item; a callback's own failure, which aborts, is covered by the abort input. A wait for the earliest item ends at that item's time or later: the clock does not go back between the wait and the compaction.
- Diagnostics, snapshots, failure retention, error wrapping and option plumbing.
- `buffer`, `set`, `xmaps`, `xslices`, crossbeam ports, benchmarks and examples: sequential or unrelated code.
- Weak-memory effects: atomics are sequentially consistent.
