# A verified model of an OPC DA client session

This project models the session, item and value layers of a pure Go OPC DA 2 client and proves
properties of them. Run `dafny verify dfyconfig.toml` to check everything.

## What is modelled

**The session protocol** (`group_dcom.go`, `keepalive.go`, `rpc.go`, `server.go`).
`SessionTable` and `Keepalive` hold the mutable state as classes: every lock section of the
session and every gate-held section of the pinger is a method, proved equal to a function on the
fields. `Protocol` interleaves those functions with gate steps, RPC dispatch, RPC replies and the
steps of teardown. The server is state of its own: the group handles it holds, which of them a
lost reply hides, and its ping set. It may take a request and lose the reply, free a handle and
give it to a later group, create and drop groups this session does not know, and fail the ping
loop. `ProtocolInvariant` proves one invariant for every step; `ProtocolTheorems` and
`ProtocolTeardown` prove safety over whole runs; `ProtocolOutcomes` proves what an undisturbed
operation achieves and what a keepalive reference costs; `ProtocolProgress` proves that nobody waits
for ever; `ProtocolCounterexample` is a concrete run.
`ServerClose` interleaves any number of calls of `Server.Close` with any number of operations.
`Handover` is the passage of a transport from the context of one operation to the lifetime of the
session, with a cancellation hook that runs in its own goroutine.

**Items and batches** (`batch.go`, `batch_wire.go`, `remove.go`). `Batch` is the split of a
request into RPCs of at most 1000 items against an arbitrary server: a reply can be lost, refused,
have arrays of any length, or answer each item. `Items` specifies the registry with a plain
ordered list beside the map, `ItemReads` and `ItemWrites` specify reading and writing, `GroupItems`
holds the class with the loops, the scattering by position and the in-place compaction, and
`ItemRuns` proves what any sequence of adds and removes keeps. The ghost field `wire` logs RPCs.

**Values** (`scalar.go`, `value.go`, `array.go`, `read_wire.go`, `date.go`, `cmd/opcda/value.go`).
`Automation`, `Encode` and `Decode` are the recursive VARIANT and SAFEARRAY encoder and decoder
(sections 2.2.29 and 2.2.30 of MS-OAUT) with their different depth accounting; `RoundTrip` proves
that they agree. `Acceptance` characterises the values that can be written, and `Records` gives the
records field by field, with the type numbers of the protocol. `Dates` is the DATE conversion (section 2.2.25 of MS-OAUT) over reals with a
rounding bound, `Decimals` the exact printer and parser (sections 2.2.24 and 2.2.26 of MS-OAUT),
`DecimalText` the texts it accepts, `Utf8` the texts of values.

**String bindings** (`dcom.go`). `Bindings` is the scan of a DUALSTRINGARRAY (section 2.2.19 of
MS-DCOM) for a TCP port.

`Words` has the machine integers, `ListSort` sorting by a strict order, `Runs` induction along a
run, `Wrappers` and `Collections` what all of them share.

## Where the code differs from its purpose

The table of pending removals is meant to name every created group that the server still holds
although its removal was tried. It does not always. Let group A be removed by the server while the
outcome is still on its way; let the server give A's handle to group B, and let B's removal fail,
which books the handle as pending. When A's success is booked after that, it erases the entry that
B needs (`group_dcom.go:299-311`). `ProtocolCounterexample.PendingRemovalLost` is such a run.
`ProtocolTeardown.TrackedIffNoStaleErase` gives the exact condition for every run,
`ProtocolTeardown.TrackedWithoutEarlyReuse` a condition on the server alone, and
`ProtocolTeardown.TrackedWhenSerial` one that a caller can meet alone: create no group while the
removal of another is on its way or not yet booked.

## Assumptions

- Rounding to a double is a parameter (`Dates.Fpu`) with the properties collected in
  `Dates.Faithful`: the relative error bound of IEEE double rounding, and exactness on integers.
- The server drops a group of this session only when it executes RemoveGroup for its handle, and
  does not give out a handle it still holds.
- RemoveGroup reports success only after it took effect, and a ping set update that is acknowledged
  was applied. A failed call may have taken effect or not.
- The fields behind one mutex, or held through one gate, are touched by nobody else meanwhile.

## Model

| member | source | states |
|---|---|---|
| SessionTable.Session.TryAdmit | group_dcom.go:93-99 | admission counts the operation unless the session is closed, in one lock section |
| SessionTable.Session.GetGroup | group_dcom.go:65-73 | a local id resolves exactly when it is in the table |
| SessionTable.Session.RegisterGroup | group_dcom.go:121-136 | registration fails without effect when closed or out of ids, and otherwise uses the next id |
| SessionTable.Session.UnregisterGroup | group_dcom.go:346-348 | removal deletes this id and nothing else |
| SessionTable.Session.BookRemoval | group_dcom.go:301-310 | a failed removal is remembered by remote handle, a success forgets the handle |
| SessionTable.Session.StartClose | keepalive.go:287-293 | only the first caller begins the teardown |
| SessionTable.Session.TeardownTargets | keepalive.go:312-327 | the snapshot lists every group once and every pending handle that no registered group owns once |
| Keepalive.ObjectPinger.ComplexPing | keepalive.go:138-162 | cancelled before dispatch it changes nothing; dispatched it advances the sequence number, and a lost reply sets the error whether or not the set changed |
| Keepalive.ObjectPinger.Add | keepalive.go:164-182 | the first reference updates the set, later ones count, a failure counts nothing |
| Keepalive.ObjectPinger.Remove | keepalive.go:191-206 | only the last reference updates the set, a failure keeps the reference |
| Keepalive.ObjectPinger.Close | keepalive.go:268-281 | shutdown deletes exactly the retained objects from the set, in one update and only if there are any |
| Keepalive.StepConsistent | keepalive.go:138-207 | every event keeps counts and set in agreement while healthy and the sequence number equal to the dispatched updates mod 65536; the error never clears |
| Keepalive.RunConsistent | keepalive.go:138-236 | over any sequence of events on a new pinger: while it is healthy the remote set is the objects with a positive count, and an error lasts |
| Keepalive.OnlyDispatchedCallsCount | keepalive.go:164-206 | a call changes the count of its own object by one or fails and changes none; a shared object is released without an update |
| Keepalive.ShutdownEmptiesSet | keepalive.go:258-281 | a confirmed shutdown of a healthy pinger leaves an empty set, a failed one an unchanged set or an error |
| Keepalive.RetainOutcome | keepalive.go:164-182 | a reference is taken exactly when the object id is not zero, the pinger is healthy, and the object is already counted or the update is answered; an answered update adds the object to the remote set and its set id is kept, a lost one leaves a lasting error |
| Keepalive.ReleaseOutcome | keepalive.go:184-207 | a reference is given back exactly when the gate is had and it is not the last one, or the update is answered; the last one takes the object out of the remote set |
| Keepalive.ShutdownOutcome | keepalive.go:258-281 | the shutdown succeeds exactly when it is answered or there is nothing to delete |
| ProtocolInvariant.StepKeeps | group_dcom.go:45-350 | every step of every operation, of the server and of teardown keeps the session invariant |
| ProtocolInvariant.RunInv | group_dcom.go:45-350 | the invariant holds in every state of every interleaving |
| ProtocolTheorems.DisposedOnce | group_dcom.go:271-322 | over a run the references of a group are released at most once and its RemoveGroup is sent at most once by its disposal; no group RPC follows once the disposal began |
| ProtocolTheorems.CallsOpenGroup | group_dcom.go:45-64 | an operation that sends an RPC for a group holds a group whose disposal has not begun |
| ProtocolTheorems.RegisteredOrDisposed | group_dcom.go:101-116 | when the creating operation is over its group was registered or disposed; a registered open group is in the table under its id |
| ProtocolTheorems.IdsStep | group_dcom.go:121-136 | a step adds at most the next id and never rebinds one |
| ProtocolTheorems.IdsNeverReused | group_dcom.go:121-136 | an id denotes at most one group over a run and never resolves again once removed, whatever handles the server reuses |
| ProtocolTheorems.ClosedAdmitsNothing | keepalive.go:287-293 | once closed, the admission count never rises and nothing is admitted |
| ProtocolTheorems.AdmittedUntilDone | rpc.go:74-85 | an admitted operation stays admitted until its own Done |
| ProtocolTheorems.DoneOnce | group_dcom.go:100 | after Done an operation is finished for good |
| ProtocolTheorems.TeardownAfterDrain | keepalive.go:294-339 | on the normal and on the timed-out path no removal, reference release, keepalive stop or transport close starts before every admitted operation called Done exactly once, and none is admitted later |
| ProtocolTheorems.PingSetMatchesGroups | keepalive.go:125-207 | each count is 1 for the retained server object plus the pinned groups of that object plus the releases that failed, and while healthy the remote set is the objects with a positive count |
| ProtocolTheorems.SharedObjectStaysPinned | keepalive.go:195-198 | releasing a group that shares the server's object sends no update and leaves the server in the set |
| ProtocolOutcomes.UnpinOutcome | group_dcom.go:313-315 | the keepalive release of a disposal is tried for every pinned group: the count of its object falls by one unless the gate was not had or the last update was not answered, and the last reference sends one update that takes the object out of the remote set |
| ProtocolOutcomes.NothingToUnpin | group_dcom.go:313-315 | a group that is not pinned, or a session without a pinger, changes no count |
| ProtocolOutcomes.PinOutcome | group_dcom.go:264-267 | a new group is pinned exactly when its reference can be taken, and is disposed of otherwise |
| ProtocolOutcomes.NothingToPin | group_dcom.go:264-267 | a group whose object asked not to be pinged goes on without a reference |
| ProtocolOutcomes.UndisturbedAdd | group_dcom.go:75-136 | addGroup on an open session that nothing disturbs ends with the group under the next id, pinned and held by the server, and everything else as it was |
| ProtocolOutcomes.UndisturbedRemove | group_dcom.go:324-350 | removeGroup on an open session that nothing disturbs ends with the id unlisted, the handle dropped and not pending, the group disposed of and its reference given back, and everything else as it was |
| ProtocolOutcomes.ListedGroup | group_dcom.go:121-136 | while the session is open a registered group is open and held by the server |
| ProtocolOutcomes.UndisturbedCall | group_dcom.go:352-386 | a call on a registered group with a free gate sends its RPC and leaves everything as it was |
| ProtocolOutcomes.UndisturbedClose | keepalive.go:284-339 | closing an idle session releases the server, then stops the pinger, then closes the transport |
| ProtocolProgress.RunAccounted | group_dcom.go:45-64 | in every state of every run a held gate is held by an operation that will release it |
| ProtocolProgress.NoDeadlock | group_dcom.go:45-350 | in every state of every run an unfinished operation can take a step, or waits for a gate whose holder can |
| ProtocolProgress.OwnStepAdvances | group_dcom.go:75-350 | every step of an operation, apart from a repeatable RPC, leaves it fewer steps |
| ProtocolProgress.TeardownGoesOn | keepalive.go:284-339 | in every state of every run a close that has begun can go on or waits for an unfinished operation |
| ProtocolProgress.CloseAdvances | keepalive.go:284-339 | teardown never goes back and its loops run out of work |
| ProtocolProgress.LateCloseSkips | keepalive.go:296-309 | a close whose wait timed out removes no group and does not release the server: it only stops the pinger and closes the transport |
| ProtocolTeardown.TrackedStep | group_dcom.go:299-311 | a step keeps the pending table complete if and only if it does not book a late success over another group's failed removal |
| ProtocolTeardown.TrackedIffNoStaleErase | group_dcom.go:299-311 | over a run: every group still held after its removal was booked is in the pending table in every state, if and only if no step is such a late success |
| ProtocolTeardown.TrackedWithoutEarlyReuse | group_dcom.go:299-311 | a server that does not reuse a handle before the outcome of its removal is booked always leaves the table complete |
| ProtocolTeardown.TrackedWhenSerial | group_dcom.go:299-311 | a client that creates no group while the outcome of a removal is outstanding or unbooked always has a complete table |
| ProtocolCounterexample.PendingRemovalLost | group_dcom.go:299-311 | a run from a new session to a state where the server holds a group whose failed removal is booked while the pending table is empty |
| ProtocolTeardown.NeverReplaysOwnedHandle | keepalive.go:319-330 | teardown never replays a pending handle that a registered group owns by then |
| ProtocolTeardown.OneRemovalPerHandle | keepalive.go:328-333 | teardown sends RemoveGroup at most once for each handle, over replays and groups together |
| ProtocolTeardown.TeardownReachesEverything | keepalive.go:311-333 | a teardown that does not give up disposes every registered group and replays every pending handle no group owns, and so sends a removal for every group held when the table was complete |
| ProtocolTeardown.HeldIsReached | keepalive.go:311-333 | a group whose removal had already been sent is replayed, any other is removed |
| ServerClose.Server.BeginClose | server.go:121-134 | exactly the first call finds closed unset, and sets it with a fresh channel |
| ServerClose.Server.PublishClose | server.go:141-144 | the result is stored in the same lock section that closes the channel |
| ServerClose.StepKeeps | server.go:87-145 | in every interleaving there is one winner until the result is published |
| ServerClose.ClosedOnce | server.go:120-145 | any number of concurrent calls close the connection at most once, and exactly once when one has returned a cleanup result |
| ServerClose.OneResult | server.go:120-145 | every call returns that one cleanup result or the error of its own finished context |
| ServerClose.ResultLasts | server.go:141-144 | the result is never replaced |
| ServerClose.NoneLetThrough | server.go:106-115 | an operation whose check runs after closing began is rejected for good |
| ServerClose.LateNeverRuns | server.go:106-115 | an operation not past its check when closing begins never runs |
| ServerClose.CancellationIsSeen | server.go:87-95 | an operation that derives its context after the server's was cancelled finds it done once it has looked |
| ServerClose.WaitersAreServed | server.go:123-131 | a waiting call can take the result or the winner has a next step |
| ServerClose.OpenServerRuns | server.go:87-115 | an operation on an open server whose context is not done runs |
| ServerClose.FirstCloseCleansUp | server.go:120-145 | the first close of a connected server cleans up once and returns the result of that cleanup |
| Handover.StepKeeps | rpc.go:89-112 | every interleaving of cancellation, hook and program keeps the hand-over invariant |
| Handover.OnlyLifetimeCancels | rpc.go:94-111 | after success no later cancellation of the operation's or setup's context can cancel the transport |
| Handover.BoundAlive | rpc.go:101-103 | a bound connection is handed over with a transport that is not done |
| Handover.FailureLeavesNothing | rpc.go:104-110 | after a failure the connection is closed and its context is cancelled |
| Handover.CancellationForwarded | rpc.go:97-99 | a cancellation during binding reaches the transport |
| Handover.CancelledNeverSucceeds | group_dcom.go:101-109 | a cancellation before the last look at the context always fails the operation |
| Handover.UndisturbedSucceeds | rpc.go:89-112 | when nothing cancels and the connection is made, a bind and a group setup succeed with the transport alive and the hook stopped |
| Handover.FailedBindCleansUp | rpc.go:104-110 | a bind that fails although nothing cancels closes its connection and cancels its transport |
| Handover.GoesOn | rpc.go:89-112 | a hand-over that is not over can go on |
| Batch.SentIsOneChunkAhead | batch.go:45-73 | a batch stops at a chunk boundary, and at most one chunk was sent without a complete answer |
| Batch.StopIsFirst | batch.go:45-73 | it stops at the first chunk that cannot be sent or is not answered completely |
| Items.CallsCarry | batch.go:45-65 | no RPC is empty or has more than 1000 items, and together they carry the sent items once each, in order, with their own arguments |
| Items.CallAt | batch.go:45-65 | RPC number i carries exactly the items from 1000 i on, 1000 of them unless it is the last |
| Items.StopErrorIs | batch.go:47-73 | the error of a batch: none if everything is confirmed, else handles exhausted, a lost call, the refusal code of the call, or missing arrays, according to the first request without a complete answer |
| Items.PendingFacts | batch.go:29-44 | what is sent to AddItems is the valid unregistered ids, each once |
| Items.RegisterItems | batch.go:74-91 | recording replies keeps every registration and adds exactly the accepted items with what the server answered |
| Items.AddSettles | batch.go:74-91 | a sent id is registered if and only if its own entry of the reply has a non-negative code, and then with the handle, rights and type of that entry and the client handle that was sent for it; otherwise it is refused with that code |
| Items.RegisterSound | batch.go:47-91 | new client handles follow the counter, so the registry stays sorted by them |
| Items.AddKeepsSound | batch.go:14-94 | however an add ends: registrations are kept, new ones have client handles above the old counter, and the ordered list only grows at its end |
| GroupItems.PersistentGroup.TakeClients | batch.go:47-54 | handles are given out up to the largest 32-bit value and never past it |
| GroupItems.PersistentGroup.Classify | batch.go:26-44 | the first loop answers invalid ids, answers registered ids with their client and server handle, and records every position of the others |
| GroupItems.PersistentGroup.AddItems | batch.go:14-94 | for any server: the new registry, the error and the RPCs; every position has the handles of its registered id, the code of its own entry of the reply, or what kept it from being sent |
| ItemRuns.RunSound | batch.go:14-94 | over any run of adds and removes with any failures the ordered list is the map sorted by client handle and the counter never falls |
| ItemRuns.HandlesNeverReused | batch.go:47-54 | whatever is registered later under an old client handle is the same item with the same registration |
| ItemRuns.HandlesDistinct | batch.go:47-54 | two items never share a client handle, and handles are in range |
| ItemRuns.SentHandles | batch.go:47-66 | every client handle that an add sends is new, distinct and used up, also when its request is lost or refused |
| ItemRuns.NoHandleSentTwice | batch.go:47-66 | over a run no client handle is sent in two adds |
| ItemRuns.AddAppends | batch.go:81-87 | an add appends only new items to the registration list |
| ItemRuns.RemoveKeepsOrder | remove.go:71-78 | a removal leaves the remaining items in their order |
| ItemRuns.NothingResent | batch.go:35-42 | no registered id is sent again, and no id twice |
| Items.UnregisterItems | remove.go:71-78 | exactly the confirmed items are removed and no other registration changes |
| Items.RegisteredFacts | remove.go:36-45 | what is sent to RemoveItems is the registered ids, each once |
| GroupItems.NilIffNotRegistered | remove.go:35-80 | a result is nil if and only if its id is no longer registered |
| GroupItems.PersistentGroup.RemoveItems | remove.go:19-81 | for any server, at any failing chunk: the new registry, every result, the error and the RPCs sent; nil if and only if no longer registered |
| GroupItems.RemovalsMean | remove.go:46-80 | the result of a known id is nil or the refusal by its own code in the reply, or from the failing request on the error that stopped the removal |
| ItemReads.FullStep | batch.go:193-196 | one more answer changes the entry at its own position alone |
| ItemReads.CompleteRead | batch.go:141-199 | a read without error answers every position with its own id in request order, duplicates each |
| ItemReads.UnregisteredStays | batch.go:161-171 | an unregistered id is in the answer however the read ends |
| ItemReads.OnlyObserved | batch.go:165-173 | a registered id in the answer carries an answer of the server |
| ItemReads.SelectedIndex | batch.go:165-173 | every observed entry is kept, after the observed entries before it |
| ItemReads.ChunkAnswers | batch_wire.go:123-144 | a complete reply answers the items of its chunk in order |
| ItemReads.AnswerReports | read_wire.go:94-118 | a negative code gives that code, a missing variant and an unreadable one their errors, and a good entry its value, the signed 16-bit quality and the milliseconds since 1970 of its two-word FILETIME |
| ItemReads.ReadIsRendered | batch.go:161-199 | every result is for an unregistered id or is what the server delivered for its id in its own entry of the reply, and every delivered answer is in the results |
| GroupItems.Compact | batch.go:165-173 | compacting in place over the array being read keeps exactly the observed entries in order |
| GroupItems.PersistentGroup.ReadLocked | batch.go:141-199 | for any server: the observed part of the full answer in request order, each entry what the server delivered for its id, the error and the RPCs sent; on success result i belongs to request i |
| GroupItems.SortedByClient | batch.go:130-136 | sorting the map by client handle gives the registration list, whatever order the map is iterated in |
| GroupItems.PersistentGroup.ReadGroup | batch.go:117-138 | reads the registration list in order, independent of map iteration |
| ItemWrites.OrderIrrelevant | batch.go:217-221 | what is sent does not depend on map iteration order |
| ItemWrites.SameReport | batch.go:217-287 | two writes of the same values to the same server report the same, whatever the iteration orders |
| ItemWrites.WritablesFacts | batch.go:226-242 | what is sent is the registered ids whose value can be encoded, each once |
| ItemWrites.ReportIsExact | batch.go:201-287 | not attempted if and only if the id was in no RPC; nil if and only if a complete reply gave it a non-negative code; unknown if and only if its RPC was lost or lacked results |
| ItemWrites.WriteMeans | batch.go:201-287 | the report id by id: not registered, not encodable with the error of the encoder, nil or the item's own code, the failure of the one request without a complete answer, or not sent |
| GroupItems.PersistentGroup.Write | batch.go:201-287 | for any server the result has exactly the requested ids with the specified report, and the error and RPCs are as specified |
| Automation.CountPrefixIsProduct | array.go:56-71 | the counting loop accepts bounds if and only if every upper bound fits an int32 and no prefix describes more than 2^20 elements, and then counts their product |
| Automation.CountElements | array.go:56-71 | the loop computes that, for 1 to 32 dimensions |
| Encode.BuildArray | array.go:73-175 | the element loop builds the specified SAFEARRAY or stops with the first error |
| Decode.ParseArray | array.go:177-315 | the loops over bounds and elements read the specified value or stop with the first error |
| RoundTrip.ArrayRoundTrip | array.go:73-315 | an array written at one depth reads back in normal form at any smaller depth |
| RoundTrip.VariantRoundTrip | scalar.go:18-105 | a value accepted at depth d reads back in normal form at every depth up to d, so the 32-level limits never reject what was written |
| RoundTrip.TypedRoundTrip | value.go:119-181 | the same for tagged values: BYREF, null, INT, UINT and typed scalars |
| RoundTrip.WrittenValueReadsBack | read_wire.go:120-213 | reading back whatever writeVariant accepts succeeds and gives the normal form |
| Acceptance.AcceptedExactly | scalar.go:14-105 | exactly the acceptable values can be written: booleans, integers, currencies, error codes, finite floats, UTF-8 text within the length limit, decimals of scale at most 28, dates of the years 100 to 9999, and matching tagged values, BYREFs and arrays of such values within 32 levels |
| Acceptance.WriteAccepts | value.go:78-181 | the same at every depth, and the record nests exactly as deep as the value |
| Acceptance.ArrayAccepts | array.go:73-175 | an array can be written if and only if its type is an element type, its bounds fit and count its values, and each value is acceptable as an element |
| Records.ScalarRecord | scalar.go:25-105 | every acceptable scalar is written with its own type number and payload |
| Records.TypedRecord | value.go:119-181 | null, INT and UINT have their own records, BYREF VARIANT wraps a record, any other BYREF changes only the type of the record of its value |
| Records.LayoutTable | array.go:26-54 | the tag, cell width and feature bits of each element type, and no other element type |
| Records.ArrayRecord | array.go:73-175 | a written array has one bound for each dimension, its type in the lock word, the layout of its type and its elements in order, each cell with the bits of its element |
| Records.ScalarReads | read_wire.go:153-213 | what each type number reads as, and which records are refused |
| Records.ByRefReads | read_wire.go:124-152 | BYREF adds its tag to what the record without it reads as; BYREF VARIANT reads the record inside, with its type |
| Records.PlainReads | read_wire.go:124-152 | any other record reads as an array or a scalar by its type |
| Records.ArrayReads | array.go:177-315 | an array is read if and only if its header matches the layout of its type, its bounds are present and fit, its buffer has as many elements as they count, and each element is readable; the result has these bounds and elements |
| Records.NullArrayReads | array.go:177-185 | a null SAFEARRAY reads as the null array of its type |
| Records.CellReads | array.go:213-315 | a cell reads as the value whose bits it has, any non-zero boolean as true, a missing string as the empty one |
| Records.VariantCellReads | array.go:213-315 | an element of a VARIANT array reads as the record it is, with its type; a missing one is refused |
| Records.DateCellReads | array.go:213-315 | a DATE cell reads as the instant of the double with its bits |
| Records.TimeReadsBack | value.go:183-195 | a time that is written reads back as the nearest whole millisecond, and a whole millisecond as itself |
| Utf8.ValidIffEncoded | scalar.go:71-82 | a text is accepted as UTF-8 if and only if it encodes a list of Unicode scalar values |
| Dates.WrittenDateIsClose | value.go:183-195 | the written day value is within a quarter millisecond of the exact one and exact at midnight, also before 1899-12-30 |
| Dates.DecodeTolerates | date.go:15-26 | decoding by truncation and absolute fraction tolerates any error below half a millisecond, rounding of the product included |
| Dates.PerturbedDateDecodes | date.go:15-26 | the exact instant plus any error below half a millisecond (none when the day value is an integer) decodes to that instant |
| Dates.DateRoundTrip | value.go:183-195 | exactly the instants of the years 100 to 9999 are accepted; each reads back as the nearest whole millisecond, and a whole millisecond as itself |
| Dates.DateIsWritten | value.go:183-195 | the written double is the day and the time of day of the nearest millisecond, within a quarter millisecond |
| Dates.DateIsRead | date.go:15-26 | a finite double inside the range of days reads as its truncated day and the milliseconds of its absolute fraction, up to one rounding, or is refused when that leaves the range |
| Dates.InRangeMeans | date.go:15-26 | the range is 0100-01-01 to 9999-12-31 |
| Dates.DateIsAccepted | date.go:15-26 | every finite double from the first day to the last is read, and no other one outside the open range of days |
| Decimals.ScanCoefficient | cmd/opcda/value.go:88-112 | the digit loop accepts exactly the specified texts with their coefficient, scale and sign |
| Decimals.DecimalTextRoundTrip | value.go:32-66 | parsing the printed text of any decimal of scale at most 28 gives it back, negative zero and the 96-bit maximum included |
| Decimals.CurrencyTextRoundTrip | value.go:18 | parsing the printed text of any currency gives it back, the int64 minimum included |
| Decimals.DecimalPrintsCanonical | cmd/opcda/value.go:59-82 | printing a parsed decimal text gives the text without a plus sign or redundant leading zeros |
| DecimalText.DecimalIsExact | cmd/opcda/value.go:59-82 | a text is accepted as a decimal if and only if it is a numeral of at most 28 fractional digits with a 96-bit coefficient, and the result is that number |
| DecimalText.CurrencyIsExact | cmd/opcda/value.go:59-76 | a text is accepted as a currency if and only if it is a numeral of at most 4 fractional digits whose ten-thousandths fit 64 bits, and the result is that many |
| DecimalText.CurrencyPrintsCanonical | cmd/opcda/value.go:59-76 | printing a parsed currency gives the number with four fractional digits, without a plus sign, redundant zeros or the sign of a zero |
| Bindings.FindPort | dcom.go:229-254 | the nested loops terminate, stay in bounds and compute the specified scan |
| Bindings.ExtractTcpPort | dcom.go:224-256 | a missing or wrong security offset is refused, any other array is scanned up to it |
| Bindings.EncodedBindings | dcom.go:229-255 | on the encoding of any proper list of bindings, whatever follows, the result is the port of the first usable TCP binding, and there is none if and only if no binding is usable |
| Bindings.ScanDecides | dcom.go:229-255 | any code units at all split into proper bindings and a rest, and the result is the first usable port, no endpoint, or unterminated accordingly |
| Bindings.UsableAddress | dcom.go:245-252 | an address host[port] has exactly the port that its bracketed text parses to |
| Bindings.UsableOnlyBracketed | dcom.go:245-252 | and every usable address has that form, with no further opening bracket in the port |
| Bindings.UsableExactly | dcom.go:242-253 | a binding is usable with port n if and only if its tower is 7 and its address is host[n], with n from 1 to 65535 in decimal and possibly after zeros |
| Bindings.PortIsFirstEndpoint | dcom.go:224-256 | the port is the endpoint of the first binding that has one, and an error is returned exactly when none has |

## Left out

- NDR byte layout, deferred pointers and the generated codecs: decoded replies are arbitrary records, and the byte size field of a record is not modelled.
- Dialing, NTLM, activation, presentation contexts and ProgID lookup.
- Real time: deadlines and tickers are cancellation events and a ping loop step that may set the error.
- IEEE bit layout: a float is its bits, with finiteness and rounding as parameters.
- UTF-16 conversion: `Bindings` scans code units, since brackets and digits are single units, and returns the port as a number instead of its decimal text.
- Item texts in values are byte strings checked for UTF-8; their transport encoding is not modelled.
- Error texts and joined errors: errors are tags, and of joined errors only the one that decides is kept.
- An AddGroup whose reply is lost: the group may exist on the server, but the session has no handle for it, so no statement covers its removal.
- The identifier of the ping set: only that it is taken from each reply, not that a server keeps it.
- An update that deletes more than 65535 objects at once, whose 16-bit count would wrap.
- Sections held through the pinger's gate and the final shutdown of the pinger are single steps of `Protocol`; their inside is the class in `Keepalive`.
- `withSingleItem` and the operations built on it (one-item read and write, browsing, properties): their clean-up is straight-line code.
- setGroupActive shares the gate protocol of the other group calls and adds nothing but its own RPC.
- The gate of a group and the drain of admitted operations block; they are steps of `Protocol`, not methods.
- Big integers that printing and parsing update in place are values.
- Aliasing of slices and of the Item values handed to callers: results are values or fresh arrays.
- Checks before a batch (group found, gate acquired, keepalive healthy) arrive as one parameter; `Protocol` models them.
- ProtocolTheorems.TeardownAfterDrain: the deferred cancellation of the session's RPC context (keepalive.go:284-286) is not one of its teardown actions. On the timed-out path it runs before the drain. It has no event in `Protocol`, where any call may fail at any time; that it cancels the transports of the session is the lifetime event of `Handover`.
- The order in which teardown visits groups and pending handles is any order.
- GroupItems.PersistentGroup.Write: values are encoded by a pure function, so nothing is said about a caller that changes a value during the call.
- ServerClose.OneResult: does not say that a call whose context is not done returns in bounded time, because scheduling is not modelled; WaitersAreServed says that it is never stuck.
