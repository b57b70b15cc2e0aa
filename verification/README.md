# Verified models of the log, clock and button managers

Dafny models of three stateful components of the device's ESF layer, with proofs of
what they keep over every run. `dafny verify dfyconfig.toml` checks everything.

**How runs are modelled.** A concurrent component is a state, a set of steps and a
total function `Apply`; a step that is not enabled changes nothing. `Exec` folds a
sequence of steps, so a theorem about `Exec` holds of every interleaving. Code under
one mutex is one step; what happens outside a lock (the fields of a report read one by
one, a check and the insertion that follows it, a counter and the queue it counts) is
split into steps. History fields, marked as such, record what happened; no step reads
them. Code that changes variables in place is also written in place, in a class whose
methods are proved equal to the functions that the steps use.

**Log manager.** `DlogBuffer` holds the two RAM planes and the locked sections that
write, swap and clear them; `DlogPipeline` interleaves writers, ticks, reports and the
collector, `DlogSteps` says what a write and a tick do in every run, and `DlogStranding`
when a retired plane is left without a report.
`UploadList` is the list and its three-way scan, `UploadScheduler` the DLOG
thread, the blob thread and the EVP agent around it, `UploadProperties` and
`UploadProgress` and `UploadDelivery` what follows. `DlogUpload` puts the pipeline and
both lists together. `ElogSave`, `ElogQueue` and `ElogConservation` are the
event-log path, and `ElogHistory` says when a message is saved, sent or given up.

**Clock manager.** `ClockGate` is the readers/writer counter and the barrier under two
mutexes, `ClockParams` the parameter cache in place, `ClockStorage` its runs with the
storage, `NotificationQueue` the
linked queue on the heap, `ClockLifecycle` the state machine with its two threads, and
`ClockStop` and `ClockBarrier` say when a Stop succeeds and when writers are kept out,
`ClockCycle` what a Start and a synchronization achieve.

**Button manager.** `ButtonList` is the linked list on the heap, `ButtonEngine` handles,
callbacks and events, `ButtonProperties` what one step and one press do, `ButtonPresses`
the theorems about whole runs, `ButtonRegistration` what is registered and how it gets
to the call.

## What is assumed

- Mutex operations, allocation and JSON calls succeed; a locked section is atomic.
- The byte buffer appends to a sequence that starts at the plane's base after a clear,
  and refuses a push beyond the plane's size. There are two planes.
- The EVP agent runs upload callbacks only inside `SYS_process_event`, for the upload
  accepted last, not after its end or after a failed `SYS_process_event`, with a
  non-null buffer, and asks for no more bytes than the size it was given.
- A message queue delivers each message it accepts to one receiver and may refuse a
  message. DLOG messages all have one priority and arrive in order; ELOG commands have
  different ones, and any may arrive next.
- A failed load from the parameter storage leaves the object as it was prepared; a
  successful save stores the masked items; a failed save may leave anything.
- Joining a thread id that is not valid fails.

## Where the code does less than one might expect

- A swap while the other plane is still pending drops that plane
  (`FirstOverrunLosesPendingPlane`, `OverrunLosesLogs`); losslessness is proved for all
  other runs.
- A log larger than a plane is rejected after the swap it caused, and no report is sent
  for the retired plane
  (src/esf/log_manager/src/log_manager_internal.c, lines 2263-2283). That, a report that
  cannot be sent and a refused report of an empty plane are all the ways in which a plane
  is left behind (`WhenPlanesAreStranded`); its data stay until the next swap overruns it
  (`StrandedLogsAreNotCollected`), and critical logs in it miss their deadline
  (`CriticalLogIsStranded`, `OverdueCriticalLogs`).
- A resend that the ELOG thread posts to itself is not freed when the message queue
  refuses it (`SomeRunLeaks`, `LeaksAreFailedResends`).
- A log or payload that finds its upload list full is dropped, and the callback of a bulk
  log is not called (`WhenPayloadIsRefused`).
- A log can be delivered twice after `SYS_process_event` has failed
  (`SomeLogIsDeliveredTwice`); without a failure it cannot (`NothingIsDeliveredTwice`).
- A factory reset keeps the second NTP server (`WhenResetGivesDefaults`), and one that
  comes between the copy and the save after a synchronization is undone in the storage
  (`ResetDuringSaveIsUndone`).
- A Stop that fails waiting for the daemon has already joined the monitor; every later
  Stop fails (`WhenStuck`, `StopOutcome`, `SomeRunGetsStuck`).
- A button's state changes before the locked section that runs the callbacks. A handle
  enabled in between finds the button held and runs the pressed callbacks, and then the
  event runs them again (`PressRunsOnce`, `SomePressRunsTwice`).
- A registration refused by a callback limit of zero leaves an empty entry
  (`ZeroLimitLeavesEmptyEntry`, `WhenRunsAreStructured`).

## Model

| member | source | states |
|---|---|---|
| DlogBuffer.PaddedSize | src/esf/log_manager/src/log_manager_internal.c:2930-2933 | the size reserved for `n` bytes is a multiple of 16 and lies in (n + 16, n + 32] |
| DlogBuffer.PaddedSizeIsMonotone | src/esf/log_manager/src/log_manager_internal.c:2237-2242 | the reserved size never falls as data grows, and stays equal exactly within one AES block |
| DlogBuffer.DlogRam.PushBack | src/esf/log_manager/src/log_manager_internal.c:2243-2244 | the byte buffer's contract: refuses, unchanged, exactly what exceeds the plane, else appends |
| DlogBuffer.DlogRam.ChangeDlogByteBuffer | src/esf/log_manager/src/log_manager_internal.c:1897-1925 | in place, does to all shared variables what `ChangePlane` says, the overrun branch included |
| DlogBuffer.DlogRam.WriteDlog | src/esf/log_manager/src/log_manager_internal.c:2213-2311 | the locked part of a write leaves exactly the state and result of `Write`, whose runs `DlogPipeline` is about |
| DlogBuffer.DlogRam.HandleCriticalLogTiming | src/esf/log_manager/src/log_manager_internal.c:3832-3882 | swaps exactly when a critical log has been pending for the timeout, and says whether it did |
| DlogBuffer.DlogRam.ClearRetiredPlane | src/esf/log_manager/src/log_manager_internal.c:1872-1885 | empties the retired plane, its counter and its flag, and sets the status to Use |
| DlogPipeline.RunIsSafe | src/esf/log_manager/src/log_manager_internal.c:1872-1925 | every run of any number of writers, ticks and collector steps keeps: bytes, counter and critical flag of each plane match the logs in it; a spare plane is empty; the recorded time is that of the first critical log in the current plane; sizes in reports fit a plane |
| DlogPipeline.PlanesStaySeparate | src/esf/log_manager/src/log_manager_internal.c:1897-1925 | in every run, overruns included, a retired plane is not the current one, status Use means an empty and uncritical spare plane, and each counter is its plane's length |
| DlogPipeline.ClearSparesCurrentPlane | src/esf/log_manager/src/log_manager_internal.c:1844-1895 | however late it comes, the collector's clear leaves the plane being written as it is |
| DlogPipeline.CriticalDeadline | src/esf/log_manager/src/log_manager_internal.c:3832-3882 | after each tick no critical log in the current plane is as old as the timeout, and the pending flag says exactly whether there is one; `DlogStranding.OverdueCriticalLogs` is about the other plane |
| DlogPipeline.RunHasRoom | src/esf/log_manager/src/log_manager_internal.c:2237-2242 | if every log fits a plane alone, every plane length and every size in a report satisfies the capacity test in every run |
| DlogPipeline.BackupStaysInBounds | src/esf/log_manager/src/log_manager_internal.c:1844-1860 | the copy of a retired plane stays within the buffer allocated for it and, with logs that fit alone, leaves the room encryption needs |
| DlogPipeline.RunKeepsUp | src/esf/log_manager/src/log_manager_internal.c:2213-2324 | without an overrun at most one report is under way, it describes the retired plane, and collected, pending and current logs are the accepted ones |
| DlogPipeline.NothingIsLost | src/esf/log_manager/src/log_manager_internal.c:1743-1766 | in every run without an overrun, collected payloads, pending plane and current plane are, in order, the bytes of all accepted logs, whether or not reports get sent |
| DlogPipeline.PayloadsAreBatches | src/esf/log_manager/src/log_manager_internal.c:1743-1766 | without an overrun a payload is a run of whole accepted logs and is flagged critical exactly when one of them is |
| DlogPipeline.FirstOverrunLosesPendingPlane | src/esf/log_manager/src/log_manager_internal.c:1900-1913 | exactly when data get lost: the next step of a run that has lost nothing loses something if and only if, in the state before it, a plane is pending and holds something and the step is a write that does not fit or a tick that swaps |
| DlogPipeline.OverrunLosesLogs | src/esf/log_manager/src/log_manager_internal.c:1900-1913 | the restriction is needed: a concrete run of three writes loses the first log |
| DlogSteps.WhatWriteDoes | src/esf/log_manager/src/log_manager_internal.c:2237-2311 | in every run, from the logs the current plane holds: a write swaps the planes if and only if the new length in whole blocks plus two blocks reaches the capacity; it is refused if and only if it swaps and exceeds a whole plane; the retired plane, its size and flag, the new plane, its logs and the report follow |
| DlogSteps.WhenTickSwaps | src/esf/log_manager/src/log_manager_internal.c:3832-3882 | in every run a tick of the idle thread swaps the planes if and only if the current plane holds a critical log at least as old as the timeout, and otherwise changes nothing |
| DlogSteps.PendingPlaneHasItsSize | src/esf/log_manager/src/log_manager_internal.c:1897-1925 | in every run, overruns included, the recorded size is the length of the pending plane |
| DlogSteps.RetiredPlaneIsCollected | src/esf/log_manager/src/log_manager_internal.c:1743-1766 | in every run without an overrun a thread that has retired a plane that is not empty can report it, and the DLOG thread receive, copy and clear it: the payload is the plane's logs, critical if one of them is, and the plane being written is not touched |
| DlogStranding.WhenPlanesAreStranded | src/esf/log_manager/src/log_manager_internal.c:2262-2324 | in every run without an overrun a plane is pending with no report under way if and only if some step was a write larger than a plane that retired one, a failed send, or a refused report of an empty plane |
| DlogStranding.PendingPlaneHasOneReport | src/esf/log_manager/src/log_manager_internal.c:1743-1766 | without these causes and without an overrun exactly one report is under way whenever a plane is pending, else none |
| DlogStranding.StrandedLogsAreNotCollected | src/esf/log_manager/src/log_manager_internal.c:1844-1895 | once a plane is stranded no continuation without an overrun collects it or anything else |
| DlogStranding.CriticalLogIsStranded | src/esf/log_manager/src/log_manager_internal.c:2262-2283 | a concrete run: a critical log of ten bytes, then one of 49 in planes of 48; however often the thread ticks, the critical log is not collected |
| DlogStranding.OverdueCriticalLogs | src/esf/log_manager/src/log_manager_internal.c:3832-3882 | after each tick a critical log as old as the timeout has been collected or is in the pending plane, and then exactly one report is under way if and only if none of the causes has occurred |
| UploadList.TargetPrecedesAll | src/esf/log_manager/src/log_manager_list.c:579-602 | the one-pass scan picks an entry if and only if it comes before all others in the order of `Rank`; which entry that is by its fields says `TargetByFields` |
| UploadList.TargetByFields | src/esf/log_manager/src/log_manager_list.c:583-602 | by fields alone: the target is the last flagged entry if there is one, else the last critical one if there is one, else the last of all |
| UploadList.List.FindTarget | src/esf/log_manager/src/log_manager_list.c:710-736 | the scan loop returns the flagged entry and the target, which `TargetByFields` pins by fields, or null |
| UploadList.List.SetUploadStatus | src/esf/log_manager/src/log_manager_list.c:167-215 | changes the target only; going back to Request resets its progress and its flag |
| UploadList.List.GetPriorityUploadData | src/esf/log_manager/src/log_manager_list.c:698-744 | flags the target unless an entry is flagged already and returns it, or null for the empty list |
| UploadList.List.CheckListNum | src/esf/log_manager/src/log_manager_list.c:267-289 | counts the entries |
| UploadList.List.Register | src/esf/log_manager/src/log_manager_list.c:315-353 | puts a fresh entry at the head and leaves the rest |
| UploadList.List.UnregisterPriority | src/esf/log_manager/src/log_manager_list.c:566-630 | removes exactly the target and returns it for its callback |
| UploadScheduler.RunIsCoherent | src/esf/log_manager/src/log_manager_internal.c:1556-1655 | every run keeps: ids fall along the list, one flag on the oldest of its class, others untouched requests, and the agent holding the first `done` bytes of the flagged entry |
| UploadScheduler.AgentAsksWithinBounds | src/esf/log_manager/src/log_manager_internal.c:1471-1484 | a chunk copy never reads beyond the entry's data |
| UploadProperties.AtMostOneInFlight | src/esf/log_manager/src/log_manager_internal.c:1454-1655 | in every run with insertions at any point, whatever entry the agent works on or the blob thread means is the one every scan finds |
| UploadProperties.AgentIsServedInOrder | src/esf/log_manager/src/log_manager_internal.c:1599-1625 | a put happens only while the agent has no upload of this list, and chunks stay in bounds |
| UploadProperties.EveryEntryOnce | src/esf/log_manager/src/log_manager_internal.c:1118-1163 | the list stays within its maximum though check and insertion are separate, and every registered entry is listed or retired, exactly once |
| UploadProperties.RetiredInOrder | src/esf/log_manager/src/log_manager_list.c:566-630 | faults included, entries of one class retire in registration order, each with its callback called once with its own size and user data, or its buffer freed once |
| UploadProperties.UploadsCarryTheLog | src/esf/log_manager/src/log_manager_internal.c:1471-1491 | what the agent has received is always the first bytes of the log it was asked for, across retries; a full-size upload delivers the whole log |
| UploadProperties.CriticalIsServedFirst | src/esf/log_manager/src/log_manager_list.c:698-744 | in every run, a pass that flags an entry while none is flagged flags a critical one if any is listed, and the oldest of its class |
| UploadProperties.RefusedPutGivesUpFlag | src/esf/log_manager/src/log_manager_internal.c:1599-1655 | in every run a put that is refused costs its entry the flag and nothing else, and the thread goes back to the start of its loop |
| UploadProperties.AcceptedPutUploads | src/esf/log_manager/src/log_manager_internal.c:1599-1655 | in every run a put that is accepted gives the agent the entry's whole size and marks the flagged entry as uploading |
| UploadProperties.FailedUploadGoesBack | src/esf/log_manager/src/log_manager_internal.c:913-948 | in every run a failed upload counts one retry; before the third its entry goes back to an unflagged request from the start, with the third it is finished |
| UploadProperties.FaultGoesBack | src/esf/log_manager/src/log_manager_internal.c:1200-1213 | in every run a failed SYS_process_event makes the agent's upload forgotten and the flagged entry, finished or not, an unflagged request from the start |
| UploadProgress.AtMostThreePuts | src/esf/log_manager/src/log_manager_internal.c:913-948 | while SYS_process_event does not fail no entry is put more than three times |
| UploadProgress.StepSpends | src/esf/log_manager/src/log_manager_internal.c:913-948 | no step but a registration increases the sum of 3 (3 - retries) + phase; puts, ends and retirements decrease it |
| UploadProgress.PassSpends | src/esf/log_manager/src/log_manager_internal.c:1178-1218 | any pass returns to the start of the loop with no more work left than before, and with less if it accepts its put and ends a running upload |
| UploadProgress.WorkIsBounded | src/esf/log_manager/src/log_manager_internal.c:1178-1218 | in a fault-free run puts, ends and retirements number at most twelve for each registration |
| UploadProgress.ListDrains | src/esf/log_manager/src/log_manager_internal.c:1178-1218 | over any sequence of passes of the blob thread, with chunks and length checks at any point, puts accepted or refused, uploads that outlast a pass, and nothing new: the list is empty once twelve passes for each entry accept their put and end a running upload |
| UploadDelivery.RetiredWasDeliveredOrFailed | src/esf/log_manager/src/log_manager_internal.c:913-948 | in every fault-free run an entry that left the list was delivered exactly once, with a prefix of its log or all of it, or it failed three times and was never delivered |
| UploadDelivery.NothingIsDeliveredTwice | src/esf/log_manager/src/log_manager_internal.c:1454-1491 | in every fault-free run no log is delivered twice |
| UploadDelivery.SomeLogIsDeliveredTwice | src/esf/log_manager/src/log_manager_internal.c:1200-1213 | a concrete run of fifteen steps in which one failed SYS_process_event makes the agent get a log twice |
| DlogUpload.EveryPayloadHasOneFate | src/esf/log_manager/src/log_manager_internal.c:1065-1163 | pipeline and both lists together: each collected payload but the one in hand is registered once, with its own bytes in the local list, or was refused by a full list, or its encryption failed; entries come in the order of collection, and every entry and refusal is accounted for |
| DlogUpload.WhenPayloadIsRefused | src/esf/log_manager/src/log_manager_internal.c:1118-1163 | whatever comes between check and registration, a payload that could be encrypted is refused if and only if its list was full when checked, else registered in that list |
| DlogUpload.LogsReachPayloads | src/esf/log_manager/src/log_manager_internal.c:1743-1766 | without an overrun the accepted logs are, in order, the bytes of the collected payloads, the pending plane and the current plane of the composed run |
| DlogUpload.PayloadReachesAgent | src/esf/log_manager/src/log_manager_internal.c:1454-1491 | a registered payload whose entry left its list, the list being fault-free, was delivered exactly once or failed three times; what was delivered is a prefix of what was registered for it |
| ElogSave.SaveArray.constructor | src/esf/log_manager/src/log_manager_internal.c:3737-3742 | the array starts empty |
| ElogSave.SaveArray.SaveElog | src/esf/log_manager/src/log_manager_internal.c:3730-3767 | appends, or drops the new message when five wait, reporting success either way |
| ElogSave.SaveArray.LoadElog | src/esf/log_manager/src/log_manager_internal.c:3769-3807 | returns the oldest message and shifts the others by the loop; null when empty |
| ElogSave.SaveArray.ClearElog | src/esf/log_manager/src/log_manager_internal.c:3809-3829 | leaves nothing |
| ElogSave.SaveArrayIsBoundedFifo | src/esf/log_manager/src/log_manager_internal.c:3730-3807 | over any run, kept messages are those loaded followed by those waiting, at most five |
| ElogSave.WhenSaveDrops | src/esf/log_manager/src/log_manager_internal.c:3739-3743 | a message is dropped exactly when five kept messages wait, and the others are not affected |
| ElogQueue.ReservedPlacesSuffice | src/esf/log_manager/src/log_manager_internal.c:3488-3567 | in every run the queue holds at most twelve commands, a command about to be handed over finds room, and forced and destroy commands are always admitted |
| ElogConservation.MessagesAreConserved | src/esf/log_manager/src/log_manager_internal.c:3254-3427 | an accepted event message is held in exactly one place or retired, as often as it was accepted; when it may be retired, and why, is `ElogHistory` |
| ElogConservation.StringsAreFreedOnce | src/esf/log_manager/src/log_manager_internal.c:3254-3427 | every string allocated is held, with its caller, freed or leaked, and only one of these, once |
| ElogConservation.LeaksAreFailedResends | src/esf/log_manager/src/log_manager_internal.c:3273-3284 | the sequence of strings leaked is exactly that of the resends the thread posts to itself that the message queue refuses; running out of places leaks none |
| ElogConservation.SomeRunLeaks | src/esf/log_manager/src/log_manager_internal.c:3273-3284 | a concrete run of eighteen steps that leaks a string |
| ElogConservation.NothingIsLeftBehind | src/esf/log_manager/src/log_manager_internal.c:2327-2362 | after closing, strings are freed but for those the agent has and those leaked |
| ElogHistory.WhatEachStepDoes | src/esf/log_manager/src/log_manager_internal.c:3254-3427 | in every run, from the state before each step: the messages given up with their reasons, those saved and those the agent has; in particular one is delivered if and only if the agent finished it, and a message that cannot be sent or whose telemetry fails is saved behind the others while fewer than five wait |
| ElogHistory.WhenSavingIsGivenUp | src/esf/log_manager/src/log_manager_internal.c:3730-3767 | in every run a message is given up because the save array is full if and only if it has to be saved while five wait |
| ElogHistory.ThreadAsksAgain | src/esf/log_manager/src/log_manager_internal.c:3254-3370 | in every run a message that cannot be sent makes the thread ask for a client, a failed attempt ask again, a client wait for the connection, and a connection resend the oldest saved message: there is always a place for what it posts to itself |
| ElogHistory.DeliveryResendsNext | src/esf/log_manager/src/log_manager_internal.c:3384-3409 | in every run, after a delivery the oldest saved message is posted again if fewer than ten commands are counted, and otherwise given up |
| ElogHistory.WhenCallersAreAdmitted | src/esf/log_manager/src/log_manager_internal.c:3488-3567 | in every run a caller is admitted if and only if fewer than ten commands are queued or on their way, else its string is freed at once |
| ElogHistory.MessageReachesAgent | src/esf/log_manager/src/log_manager_internal.c:3254-3427 | in every run, with a client, nothing saved and a place, a message goes from its caller to the agent and is delivered, which changes nothing but the history |
| ElogHistory.ClosingEndsThread | src/esf/log_manager/src/log_manager_internal.c:2384-2398 | in every run the destroy command finds a place, reaches a waiting thread, ends it, and what was saved is given up; queue, counter and callers are as before |
| ClockGate.Gate.EnterReadingIfPossible | src/esf/clock_manager/src/clock_manager_setting.c:1203-1219 | counts a reader in exactly when no writer is inside, and says so |
| ClockGate.Gate.ClaimIfFree | src/esf/clock_manager/src/clock_manager_setting.c:1236-1255 | claims the gate for a writer exactly when it is empty |
| ClockGate.Gate.LeaveReading | src/esf/clock_manager/src/clock_manager_setting.c:1268-1284 | counts one reader out, never below zero |
| ClockGate.Gate.LeaveWriting | src/esf/clock_manager/src/clock_manager_setting.c:1286-1302 | ends a writer's claim |
| ClockGate.Gate.MarkCompletedSync | src/esf/clock_manager/src/clock_manager_setting.c:1304-1317 | lowers the barrier and leaves the counter |
| ClockGate.ReadersAndWriterExclude | src/esf/clock_manager/src/clock_manager_setting.c:1203-1302 | for any number of threads and every interleaving the counter is -1 exactly when one writer is inside, else the number of readers inside, never both |
| ClockGate.WhenReaderEnters | src/esf/clock_manager/src/clock_manager_setting.c:1203-1219 | in every run a reader is let in if and only if no writer is inside |
| ClockGate.WhenWriterIsTurnedAway | src/esf/clock_manager/src/clock_manager_setting.c:1221-1266 | in every run a writer is turned away if and only if the barrier was raised and has not been lowered since |
| ClockGate.WhenCounterLetsIn | src/esf/clock_manager/src/clock_manager_setting.c:1141-1255 | in every run a writer past the barrier gets in if and only if nobody is inside, and a thread that raises the barrier goes on if and only if no writer is inside; else they wait without the counter's mutex |
| ClockGate.WriterComesAndGoes | src/esf/clock_manager/src/clock_manager_setting.c:1221-1302 | in every run, with the barrier down, both mutexes free and nobody inside, a writer gets in within six steps, and when it leaves everything is as it was |
| ClockGate.RaisingReturnsWithBarrierUp | src/esf/clock_manager/src/clock_manager_setting.c:1141-1182 | a call that raises the barrier, not lowered meanwhile, returns with the flag up and no writer inside |
| ClockGate.BarrierKeepsWritersOut | src/esf/clock_manager/src/clock_manager_setting.c:1141-1266 | from that return until the barrier is lowered no writer is or becomes active, although waits release the counter mutex |
| ClockParams.ParamsForPsm.SetDefault | src/esf/clock_manager/src/clock_manager_setting.c:2199-2253 | gives one number its default and leaves the others |
| ClockParams.ParamsForPsm.CheckConnect | src/esf/clock_manager/src/clock_manager_setting.c:2039-2060 | repairs the two names: default server, or no second server |
| ClockParams.ParamsForPsm.CheckItem | src/esf/clock_manager/src/clock_manager_setting.c:2062-2078 | gives a number without a record or out of range its default |
| ClockParams.ParamsForPsm.CheckData | src/esf/clock_manager/src/clock_manager_setting.c:2187-2197 | turns what was loaded into what `LoadedFrom` says |
| ClockParams.ParamsForPsm.OnFactoryReset | src/esf/clock_manager/src/clock_manager_setting.c:1885-1933 | sets every parameter but the second server to its default |
| ClockParams.ParamsForPsm.TakeNames | src/esf/clock_manager/src/clock_manager_setting.c:2305-2318 | copies the masked names and repairs the pair |
| ClockParams.ParamsForPsm.SubstituteForVolatileObj | src/esf/clock_manager/src/clock_manager_setting.c:2255-2373 | copies masked parameters into the cache, item by item, as `Substituted` says |
| ClockStorage.CacheStaysValid | src/esf/clock_manager/src/clock_manager_setting.c:1344-1371 | after any sequence of load, set, forced set, reset and get, all eleven parameters are valid and the reload branch was never taken |
| ClockStorage.SetChangesMaskedOnly | src/esf/clock_manager/src/clock_manager_setting.c:815-949 | a set of either kind that nothing interrupts succeeds exactly when let in, in range and, if it saves, saved; then each masked parameter is the given one, and in every other case a parameter keeps its value; in range is said by fields, not by the check |
| ClockStorage.WhenSetIsRefused | src/esf/clock_manager/src/clock_manager_setting.c:1706-1791 | a set or a forced set that is let in returns ParamError if and only if some masked name has 256 or more characters or some masked number is below its minimum or above its maximum; InternalError is a writer not let in or a save that fails |
| ClockStorage.ParametersAreLastSet | src/esf/clock_manager/src/clock_manager_setting.c:1344-1371 | after any sequence of operations each parameter is what the last accepted set with its mask asked for, or its default if a reset came later, or what was loaded |
| ClockStorage.RecordsAreLastSaved | src/esf/clock_manager/src/clock_manager_setting.c:815-908 | after any sequence of operations each record is what was last saved: by a forced set with its mask, or by the save after a synchronization, which writes all parameters as they were when it copied them; or else what a failed save or a reset left |
| ClockStorage.RestartKeepsDurable | src/esf/clock_manager/src/clock_manager_setting.c:1935-2006 | after any sequence of operations a restart finds every parameter that was loaded, set with force or saved after a synchronization and not changed otherwise since |
| ClockStorage.SynchronizationSurvivesRestart | src/esf/clock_manager/src/clock_manager_setting.c:1440-1498 | in every run, after a successful save following a synchronization, with writers kept out and no reset from the copy to the save, a restart finds the whole cache, forced or not |
| ClockStorage.ResetDuringSaveIsUndone | src/esf/clock_manager/src/clock_manager_setting.c:1461-1485 | a factory reset between the copy and the save is in the cache only: the storage, and a restart, has the value asked for before it |
| ClockStorage.WhenResetGivesDefaults | src/esf/clock_manager/src/clock_manager_setting.c:1885-1933 | after any sequence of operations a factory reset gives the defaults if and only if the second server last asked for is none |
| ClockStorage.ResetKeepsSecondServer | src/esf/clock_manager/src/clock_manager_setting.c:1885-1933 | a run in which a second server survives the reset |
| NotificationQueue.Notifications.PostNotification | src/esf/clock_manager/src/clock_manager_notification.c:308-383 | the second, locked test decides: appends at the tail for a valid thread id, else changes nothing |
| NotificationQueue.Notifications.GetNotification | src/esf/clock_manager/src/clock_manager_notification.c:385-410 | unlinks the head, keeping head and tail consistent; null when empty |
| NotificationQueue.Notifications.DeleteAllNotifications | src/esf/clock_manager/src/clock_manager_notification.c:412-433 | leaves an empty list |
| ClockLifecycle.RestingIsClean | src/esf/clock_manager/src/clock_manager.c:257-412 | in Idle and Ready, in every run, the barrier is down, no thread runs and nothing is queued |
| ClockLifecycle.NothingIsPostedToADeadNotifier | src/esf/clock_manager/src/clock_manager_notification.c:139-217 | once the notifier's id is invalid nothing is appended, and past the deletion the queue is empty |
| ClockLifecycle.CallbackRunsOnceAfterSave | src/esf/clock_manager/src/clock_manager_notification.c:219-278 | between one Start and the next the user callback runs at most once, after the save attempt; that it does run is `ClockCycle.CallbackRunsWhenOffered` |
| ClockCycle.InitAndDeinitOutcome | src/esf/clock_manager/src/clock_manager.c:81-255 | in every run Init ends in Ready if its calls succeed, else in Idle, and Deinit ends in Idle |
| ClockCycle.StartOutcome | src/esf/clock_manager/src/clock_manager.c:718-758 | a Start called in Ready, whatever happens during it, ends in Running if and only if the daemon and both threads could be started, else in Ready |
| ClockCycle.CallbackRunsWhenOffered | src/esf/clock_manager/src/clock_manager_notification.c:219-278 | in every run with the notifier waiting, the callback has run since the Start if and only if a completion was taken for a registered callback |
| ClockCycle.CompletionIsServed | src/esf/clock_manager/src/clock_manager_notification.c:250-272 | from every reachable state with the notifier waiting, a callback and a completion queued, four steps save the parameters, run the callback and lower the barrier |
| ClockCycle.SynchronizationReachesUser | src/esf/clock_manager/src/clock_manager_notification.c:139-278 | from every reachable Running state with the monitor polling and a callback, a completed synchronization is posted, saved and handed to the callback, and the barrier is lowered |
| ClockStop.WhenStuck | src/esf/clock_manager/src/clock_manager.c:760-795 | at every point of every run, the state has lost its monitor while Running, or is stopping in vain, if and only if some Stop has waited for the daemon in vain |
| ClockStop.StopOutcome | src/esf/clock_manager/src/clock_manager.c:337-412 | a Stop called in Running, whatever happens during it, ends in Ready if neither it nor an earlier one waited in vain, else in Running |
| ClockStop.StopCanSucceed | src/esf/clock_manager/src/clock_manager.c:760-795 | from every reachable Running state without such a failure a Stop can be completed in Ready: no state of the threads and the queue blocks it |
| ClockStop.FailedStopIsFinal | src/esf/clock_manager/src/clock_manager.c:760-795 | after a Stop that waits for the daemon in vain the state never becomes Ready again |
| ClockStop.SomeRunGetsStuck | src/esf/clock_manager/src/clock_manager.c:760-795 | a concrete run of Init, Start and Stop that ends so, and every later Stop of it ends in Running |
| ClockBarrier.WhenBarrierIsUp | src/esf/clock_manager/src/clock_manager.c:718-795 | in every run, while Running, the barrier is up if and only if no Stop waited in vain and the callback has not completed since the Start |
| ClockBarrier.BarrierStaysWithoutCallback | src/esf/clock_manager/src/clock_manager_notification.c:219-278 | while no completion was taken for a registered callback, and no Stop waited in vain, the barrier stays up while Running |
| ClockBarrier.SavesBehindBarrier | src/esf/clock_manager/src/clock_manager_notification.c:261-271 | in every state of every run, a Stop under way included, the barrier is up while the notifier saves the parameters and runs the callback |
| ButtonList.List.constructor | src/esf/button_manager/src/button_manager_linked_list.c:24-36 | a new list has no cells |
| ButtonList.List.PushCell | src/esf/button_manager/src/button_manager_linked_list.c:85-115 | appends the cell; the error exit is never taken |
| ButtonList.List.Unlink | src/esf/button_manager/src/button_manager_linked_list.c:135-146 | bypasses one cell of the chain and keeps size and order |
| ButtonList.List.RemoveCell | src/esf/button_manager/src/button_manager_linked_list.c:117-154 | succeeds exactly for a member and removes only it |
| ButtonList.List.VerifyCell | src/esf/button_manager/src/button_manager_linked_list.c:156-174 | succeeds exactly for a member |
| ButtonList.List.GetFrontCell | src/esf/button_manager/src/button_manager_linked_list.c:176-184 | the first cell, or null |
| ButtonList.List.GetNextCell | src/esf/button_manager/src/button_manager_linked_list.c:186-195 | the following cell, or null |
| ButtonEngine.ButtonManager.GetHandleData | src/esf/button_manager/src/button_manager_internal.c:1261-1295 | finds the first entry of a button |
| ButtonEngine.ButtonManager.ExecuteReleasedCallback | src/esf/button_manager/src/button_manager_internal.c:1686-1724 | the loop runs exactly the entries that pass the test, in list order |
| ButtonEngine.ButtonManager.ExecuteLongPressedCallback | src/esf/button_manager/src/button_manager_internal.c:1726-1765 | the loop runs exactly the entries for this tick, in list order |
| ButtonEngine.ButtonManager.ExecuteButtonCallback | src/esf/button_manager/src/button_manager_internal.c:2020-2051 | one entry's counter and callbacks for one event, counting before a long press and clearing after a release |
| ButtonEngine.ButtonManager.ExecuteButtonCallbackAllHandles | src/esf/button_manager/src/button_manager_internal.c:2053-2101 | every enabled handle is served once, in list order |
| ButtonEngine.ButtonManager.PreProcessExecuteButtonEvent | src/esf/button_manager/src/button_manager_internal.c:2103-2129 | without the mutex: updates the button's state and skips a first release |
| ButtonEngine.ButtonManager.ExecuteButtonEvent | src/esf/button_manager/src/button_manager_internal.c:2131-2173 | runs the callbacks of all handles for the state found in the button |
| ButtonEngine.ButtonManager.Create | src/esf/button_manager/src/button_manager_internal.c:2401-2462 | adds a disabled, empty handle unless the maximum is reached |
| ButtonEngine.ButtonManager.Destroy | src/esf/button_manager/src/button_manager_internal.c:2464-2505 | removes a valid handle only |
| ButtonEngine.ButtonManager.RegisterNotificationCallback | src/esf/button_manager/src/button_manager_internal.c:2507-2594 | each error in the code's order, else the callback at the end of the list of a found or new entry; what that stores by fields is `ButtonRegistration.WhatRegisterStores` |
| ButtonEngine.ButtonManager.UnregisterNotificationCallback | src/esf/button_manager/src/button_manager_internal.c:2596-2671 | each error in the code's order, else the list emptied and an entry without callbacks removed |
| ButtonEngine.ButtonManager.ResetLongPressedTime | src/esf/button_manager/src/button_manager_internal.c:1379-1409 | zeroes every counter of a handle |
| ButtonEngine.ButtonManager.CheckButtonState | src/esf/button_manager/src/button_manager_internal.c:1071-1113 | runs the pressed callbacks of the buttons held |
| ButtonEngine.ButtonManager.SetExecutable | src/esf/button_manager/src/button_manager_internal.c:2673-2730 | enables and runs what is held, or disables and resets |
| ButtonProperties.RunIsStructured | src/esf/button_manager/src/button_manager_internal.c:2401-2730 | every run keeps handles distinct and bounded, one entry for a button with at least one callback, bounded lists, parameters in range, and counters zero while disabled |
| ButtonProperties.ZeroLimitLeavesEmptyEntry | src/esf/button_manager/src/button_manager_internal.c:2560-2589 | with a callback limit of zero a refused registration leaves an empty entry and breaks the structure |
| ButtonPresses.WhenRunsAreStructured | src/esf/button_manager/src/button_manager_internal.c:2401-2730 | every run keeps the structure if and only if lists may hold a callback or nothing can be registered |
| ButtonProperties.StepSeen | src/esf/button_manager/src/button_manager_internal.c:2053-2173 | for a handle that stays enabled and every kind of callback: only running an event of the button has an effect, exactly the due one; other handles' operations have none |
| ButtonProperties.EnablingStartsAtZero | src/esf/button_manager/src/button_manager_internal.c:2696-2722 | in every run, enabling a handle starts its presses at zero ticks |
| ButtonProperties.LongPressRunsOnce | src/esf/button_manager/src/button_manager_internal.c:2034-2046 | from zero ticks until the button is released, a long-press callback for `s` seconds runs exactly once if `s` ticks arrive, else never |
| ButtonProperties.ReleaseRunsWindow | src/esf/button_manager/src/button_manager_internal.c:1710-1720 | the release ending the press runs, in registration order, exactly the callbacks with min <= ticks and (max = 0 or ticks <= max), and zeroes the count |
| ButtonProperties.LongPressRunsInOrder | src/esf/button_manager/src/button_manager_internal.c:1736-1763 | callbacks due at one tick run in registration order |
| ButtonPresses.TicksAreCounted | src/esf/button_manager/src/button_manager_internal.c:2034-2046 | in every run from the start an enabled handle's counter is the number of long-press ticks since it was enabled or the button released |
| ButtonPresses.PressInEveryRun | src/esf/button_manager/src/button_manager_internal.c:2020-2051 | from the start through an enabling or a release to the next release: each long-press callback ran once if its seconds were reached, else never, and the release runs the callbacks whose window holds the ticks |
| ButtonPresses.PressRunsOnce | src/esf/button_manager/src/button_manager_internal.c:2103-2173 | between the arrival of a press and its locked section anything may happen; each pressed callback of a handle enabled by then runs, exactly once if and only if the handle was not enabled in between |
| ButtonPresses.SomePressRunsTwice | src/esf/button_manager/src/button_manager_internal.c:1102-1109 | a concrete run of five steps in which one press runs one callback twice |
| ButtonRegistration.WhatRegisterStores | src/esf/button_manager/src/button_manager_internal.c:2507-2594 | what a registration returns and stores, by fields: after Ok the button's list of that kind is the old one, or the empty one of a new entry, with one entry more, carrying the given seconds or window and the callback; all else is as it was |
| ButtonRegistration.WhatUnregisterLeaves | src/esf/button_manager/src/button_manager_internal.c:2596-2671 | what an unregistration returns and leaves, by fields: the one list is emptied, and an entry with no list left goes |
| ButtonRegistration.WhatSetDoes | src/esf/button_manager/src/button_manager_internal.c:2673-2730 | enabling and disabling change the flag alone, but for the counters of a handle that is disabled and the calls of one that is enabled |
| ButtonRegistration.EnablingRunsWhatIsHeld | src/esf/button_manager/src/button_manager_internal.c:1071-1113 | enabling a handle runs each pressed callback once for each button with its id that is held, and none for other buttons |
| ButtonRegistration.WhatArrivalDoes | src/esf/button_manager/src/button_manager_internal.c:2103-2129 | every event but a first release becomes pending, and every event changes the state of its own button only |
| ButtonRegistration.RegisteredLongPressRuns | src/esf/button_manager/src/button_manager_internal.c:1561-1563 | in every run, from end to end: a long-press callback registered for `s` seconds, its handle then enabled and the button pressed for `n` ticks, runs once if and only if s <= n |
| ButtonRegistration.RegisteredReleaseRuns | src/esf/button_manager/src/button_manager_internal.c:1686-1724 | in every run, from end to end: a release callback registered for a window runs at the release after `n` ticks if and only if the window holds `n` |

## Left out

- DlogPipeline.NothingIsLost: says nothing of runs with an overrun, because there the pending plane is overwritten by design.
- DlogPipeline.CriticalDeadline: about the current plane only, which the tick looks at; a plane already retired is in `DlogStranding.OverdueCriticalLogs`. Time only moves forward; the source reads the realtime clock, which may be set back.
- DlogPipeline leaves out bulk logs and the finish command, which share the DLOG thread's message queue; a bulk log enters at `UploadScheduler` and `DlogUpload`.
- UploadProgress.ListDrains: fault-free runs only, because a failed SYS_process_event resets a finished entry to Request; that a pass ends at all, and that uploads end, is up to the agent.
- UploadProperties.RetiredInOrder: claims that the callback of a bulk log is called, not that its buffer is released, which is the callback's business.
- DlogUpload lets the two lists move independently, although one blob thread serves both; the theorems hold of all interleavings. Whether a payload goes to the local list or to the cloud's, and what the encryption makes of it, are choices of the environment.
- UploadScheduler models one list on values; the source has a local and a cloud copy of the same code, and entries are linked cells. Deleting a whole list at Deinit is not modelled.
- ElogQueue models the queue counter and the ELOG thread on values; the update in place of the counter is a step of the transition system. That the chain of Register and Wait commands ends is not claimed: each link is (`ElogHistory.ThreadAsksAgain`), but a client or a connection may never come.
- ClockLifecycle models the state variable, the thread ids and the two threads on values; the monitor's error counter and daemon restarts are not part of this model.
- ClockGate.Gate covers the critical sections in place; condition waits are steps of the transition system. Fairness and writer starvation are not claimed.
- ButtonProperties numbers handles and never gives a number out again; the source's handle is the address of a cell, which the allocator may give out again after the handle is destroyed.
- ButtonEngine keeps its lists as sequences in list order; that the linked cells behave so is `ButtonList`. Null arguments and starting and ending the manager are left out.
- ClockStorage: the gate and the barrier appear as whether a writer is let in; that they keep writers out during the save is `ClockGate` and `ClockBarrier`. Left out are null arguments, parameter calls racing with Deinit, and migration of settings.
- Counters are unbounded integers: wrap-around of the 32-bit retry count, tick count and list sizes is not modelled.
- Encryption, the byte buffer, the message queue, the EVP agent, the parameter storage manager and timers, beyond the contracts above.
- Metrics, setting tables, start-up and migration code, LED, memory and firmware managers, clock time addition and the storage range test: input and output, declarations, or only easy members.
