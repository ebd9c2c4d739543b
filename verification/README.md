# A verified model of the MeeSign server

The MeeSign server coordinates multi-party threshold protocols: key generation,
signing and decryption by groups of devices, each holding one or more shares of a
key. Every piece of work is a *task*. Its participants vote; a task that is accepted
runs a protocol in rounds, in which the server gathers one message per active share
and relays them; it ends finished or failed, or is declined by the vote. A timer
starts stale tasks over in a new attempt. Tasks live in a cache in memory; their
phases are not stored but derived, on demand, from what the database does store:
votes, a result, a round, and how many shares of each device are active.

The project models that state machine together with its database and cache, and
proves what holds in every run: of the vote, of the numbering of shares, of the
message buffers, of the round machine, and of memory against database.

## How it is organised

- `basics.dfy`, `shares.dfy`: byte order, participants, sorting, protocol indices by
  prefix sums, per-device counts.
- `voting.dfy`, `quorum.dfy`: the weighted vote and the choice of active shares.
- `communicator.dfy`: inbox and outbox keyed by protocol index; relaying; the final
  message. Values first, then the object.
- `rounds.dfy`, `progress.dfy`, `running_task.dfy`: the round machine of a running
  task as functions, how many answers an attempt takes, and the machine as an object.
- `store.dfy`, `handlers.dfy`: rows, cached tasks, rebuilding a task from rows, and
  what each request does to one task's rows and cache entry.
- `refinement.dfy`, `preservation.dfy`, `invariant.dfy`, `soundness.dfy`: rows and
  cache entry match; every request keeps them matched; exactly when.
- `system.dfy`: the whole server as a state machine with several tasks, several
  hydrations (rebuildings of cache entries) under way, passes of the timer, a clock, and
  restarts of the server; the invariant of all runs.
- `runs.dfy`, `hydration.dfy`, `timer.dfy`, `origins.dfy`, `isolation.dfy`,
  `attempts.dfy`, `draws.dfy`, `divergence.dfy`: the theorems about whole runs; the last
  one says exactly when the server falls short of what one would expect, and
  `instances.dfy` gives runs from an empty database that do.
- `requests.dfy`, `messages.dfy`, `ballots.dfy`, `outcomes.dfy`: what a task is, what its
  shares are handed, how its vote and its run end and how calls are answered, in every
  run, told from the requests, votes, messages and helper answers themselves.
- `passes.dfy`, `server.dfy`: a pass of the timer that nothing disturbs, and the server
  and its database as objects whose methods are proved to be the steps of the state
  machine.

## What the model takes as given

- A request handler is one step, as it holds the write guard of its task; database
  calls succeed. Filling the cache is not one step: each of its five reads is. A pass of
  the timer is not one step either: its query, which compares with a time read before, is
  one, and each restart is one, since the write guards are taken one at a time. A pass
  that errs is over; in the code that also ends the process, which is a restart of the
  server here.
- The helper process that starts a PDF task answers with a hash, an empty one included, or
  cannot be used; starting and killing it does not panic. Notifying subscribers succeeds.
- Time does not run backwards. Every protocol has at least one round.
- The build is one without overflow checks, as a release build is by default.
- Random draws, the order in which hash maps and query results are walked, and the
  answers of helper processes are parameters, with a predicate saying which values are
  possible where that matters; the theorems hold for all of them.
- Signature verification and round counts are parameters (`Env`). Encoding messages is
  an injective constructor.
- Panics and error replies are outcomes (`Panicked`, `Crashed`, `Refused`, `Rejected`),
  not preconditions. `Impossible` stands for an arm the code marks unreachable.

## Properties the code does not have in general

For each, a theorem gives the exact condition and a lemma an instance.

- Votes are cast to a signed byte. With more than 127 shares in one hand a unanimous
  yes does not add up to the total, and 200 shares turn a yes into a no
  (`UnanimityNeedsSmallShares`, `AcceptingCanDecline`). A task is declined exactly when it
  can no longer be accepted, for all votes and thresholds, if and only if nobody holds
  more than 127 shares (`TellingIffSmallShares`).
- The database admits group thresholds and key types that the protocol then refuses, and
  names of PDF tasks that take more bytes than their construction allows, as well as data
  over 8 MiB. Such a request, once accepted, stays in its vote in memory while the
  database says it is running. `AgreementIff` says for any new task exactly when the two
  stay together; `GroupAgreementIff` and `ThresholdAgreementIff` put the condition in
  terms of the request; `ThresholdOneDisagrees` and `LongNameDisagrees` are instances.
  The theorems on runs say for both kinds what does hold. A PDF task of this kind is
  taken for a running one after a restart of the server, and is then started, limits or
  not, by the batch that completes its inbox (`UpdateWaking`, `WakesIff`).
- A request may panic. `CrashesIff` says exactly when, in every run: a batch with a
  misshapen message; a batch that completes a last round without a usable result; a batch
  to a group request that cannot be constructed; and the vote on, and every later loading
  of, a group request of a single share. `LoneDeviceCrashes` and `LoneDeviceIsLost` are
  runs with such a request; `LoneIsLost` says that it is never cached again.
- If the last round is complete but yields no usable result, because the broadcasts
  differ, or agree on a key or signature of a length on which an assertion fires, or a
  helper process fails, the round in memory stands one past the last round and the stored
  one does not. `RoundsPartIff` says for every run that the two differ if
  and only if this has happened in the current attempt and in this process;
  `RestartRejoins` that a restart of the task or of the server brings them together;
  `DifferingResultsPart` is an instance.
- A batch with the wrong number of messages is dropped, yet the call succeeds
  (`BatchDroppedIff`, `TwoMessagesAreDropped`).
- Acknowledgements by devices that are not participants are kept in memory only
  (`AcknowledgementsPartIff`, `StrangerIsNotStored`).
- An update between the timer's query and the restart does not hold the restart up: the
  30 seconds are those before the query (`NoRestartSoonAfterUpdate`,
  `RestartMayFollowUpdate`, and the run of `RestartFollowsUpdate`). A task that ends in between makes the pass err, and nothing
  else does (`RestartMeetsEndedOnly`).

Where ARCHITECTURE.md (line 22) counts the participants who accept a threshold task,
the code counts their shares; the model follows the code.

## Model

| member | source | states |
|---|---|---|
| `Basics.LessIsByteOrder` | src/state.rs:509 | One id sorts before another if and only if, after a common beginning, it ends or goes on with the smaller byte. |
| `Shares.SortForgetsOrder` | src/state.rs:508-509 | The participants are listed in the byte order of their ids, and any two listings of the same participants sort to the same sequence, so later numbering cannot depend on the order of rows. |
| `Shares.IndicesInByteOrder` | src/state.rs:508-517 | Of two active indices of different devices, the lower one belongs to the device whose id comes first byte by byte. |
| `Shares.FirstShareIndices` | src/state.rs:510-517 | The scan with a running sum gives every device the number of shares of the devices before it. |
| `Shares.FirstIndexIsPrefixSum` | src/state.rs:512-515 | Where a device's stretch begins is the sum of the shares sorted before it. |
| `Shares.CountShares` | src/state.rs:547-550 | The counting loop yields each id with its multiplicity. |
| `Shares.AssignIndices` | src/state.rs:555-562 | Handing out indices device by device with a mutated map yields the map determined by the per-device counts alone, with one index per chosen share. |
| `Shares.HydrateActiveShares` | src/cached_task_store.rs:328-348 | Rebuilding from stored counts yields that same map. |
| `Shares.RebuiltMapIsChosenMap` | src/cached_task_store.rs:326-348 | For every participant order, drawing order and order of re-reading, the map rebuilt from counts is the map the draw was given. |
| `Shares.ActiveMapForgetsOrder` | src/state.rs:505-517 | The index map does not depend on the order of the participants. |
| `Shares.ActiveIsSubmap` | src/state.rs:505-507 | Whatever shares are active, each index belongs to the device it belongs to in the full numbering. |
| `Shares.ActiveStretch` | ARCHITECTURE.md:56-60 | A device's active indices are exactly a prefix of its own contiguous stretch. |
| `Shares.ActiveCardinality` | src/state.rs:542-564 | As many distinct indices are active as shares were chosen. |
| `Voting.AcceptsRejects` | src/tasks/mod.rs:91-103 | The loop over the votes computes the sums of the positive and of the negative ones. |
| `Voting.FindShares` | src/tasks/mod.rs:62-70 | The search finds a participant's shares, and nothing for a stranger. |
| `Voting.VotingTask.Decide` | src/tasks/mod.rs:57-90 | A participant's vote replaces its earlier one and the answer is the verdict on all votes; a stranger's changes nothing; the two thresholds are never both reached. |
| `Voting.TallyBound` | src/tasks/mod.rs:91-106 | Accepting and rejecting shares together never exceed the total, for any votes, wrapped or not. |
| `Voting.VerdictsExclude` | src/tasks/mod.rs:78-106 | The accept and the reject threshold are never both reached. |
| `Voting.TellingIffSmallShares` | ARCHITECTURE.md:14 | For all votes and thresholds the verdict tells what is still possible (declined exactly when the missing votes can no longer accept, accepted exactly when they can no longer decline, undecided exactly when both are open) if and only if nobody holds more than 127 shares. |
| `Voting.UnanimityNeedsSmallShares` | src/tasks/mod.rs:70-71 | A unanimous yes counts in full if and only if nobody holds more than 127 shares. |
| `Voting.LargeShareLost` | src/tasks/mod.rs:70-71 | With more than 127 shares in one hand no votes at all add up to the total. |
| `Voting.AcceptingCanDecline` | src/tasks/mod.rs:70-82 | A device with 200 shares declines a task by accepting it. |
| `Voting.StoredVote` | src/persistence/postgres_repository/task.rs:319-326 | The vote rebuilt from a stored decision is the vote cast, also where the casts wrap. |
| `Quorum.PoolSuffices` | src/state.rs:519-540 | When a task is accepted, whichever pool of candidates is used holds enough shares. |
| `Quorum.QuorumIsAssigned` | src/state.rs:519-564 | Exactly the threshold's number of distinct indices is assigned, each to a device that accepted, within the first part of its stretch, below the number of shares. |
| `Quorum.PoolIsExact` | src/state.rs:519-540 | The draw is made among the shares, each as often as it is held, of exactly the accepting devices that were active less than five seconds ago or never, if these hold enough shares, and otherwise of all accepting devices. |
| `Quorum.QuorumIsConnected` | src/state.rs:525-540 | If the accepting devices whose last activation lies less than five seconds back, or is not on record, hold enough shares, no other device gets an active share. |
| `Quorum.ChooseActiveShares` | src/state.rs:504-565 | Choosing, counting and numbering yields the stored counts and the map they stand for. |
| `Communication.IndicesAre` | src/main.rs:57-64 | A protocol index is in use if and only if that number, in FROST less one, is an active index, and belongs to the device of that one. |
| `Communication.ReceivesIff` | src/communicator.rs:58-66 | A batch is dropped if and only if it is empty or has not one message per active share of the sender; any other is stored if each of its messages has a broadcast or one unicast fewer than the threshold, and otherwise the call panics. |
| `Communication.AddressingAllIsStored` | src/communicator.rs:64-66 | With as many active shares as the threshold asks for, messages that each address all active shares but one are stored. |
| `Communication.RoundReceivedIffNobodyAwaited` | src/communicator.rs:129-132 | Comparing lengths detects exactly that no device is awaited and that the inbox covers all indices. |
| `Communication.AwaitedIsSilent` | src/communicator.rs:73-78 | A device is awaited if and only if it owns an active share and none of its indices is in the inbox. |
| `Communication.GatherKeepsClosed` | src/communicator.rs:58-71 | Storing a batch answers for that device only and for all of its shares. |
| `Communication.RelayIsExact` | src/communicator.rs:80-113 | An index hears a broadcast of another if and only if that one sent one, a unicast if and only if it was addressed; every active index gets a message and the inbox ends empty. |
| `Communication.RelayConserves` | src/communicator.rs:85-99 | Every unicast addressed to another active share is delivered, and to that share only. |
| `Communication.BatchOrder` | src/communicator.rs:175-185 | A device's sorted indices are consecutive numbers from the start of its stretch. |
| `Communication.BatchesAlign` | ARCHITECTURE.md:56-60 | The j-th message handed to a device and the j-th received from it belong to the j-th index of its stretch. |
| `Communication.FinalMessageExact` | src/communicator.rs:142-162 | A result comes out if and only if every share's broadcast verifies to that very result, in whatever order the inbox is walked. |
| `Communication.NoPanicIffUnanimous` | src/communicator.rs:154-157 | No walk of the inbox trips the assertion or the unwrap if and only if all broadcasts are there and those that verify agree. |
| `Communication.NoMessageIff` | src/communicator.rs:148-158 | Nothing comes out of a filled inbox if and only if the walk comes to a broadcast that does not verify, after such as verify to one and the same message. |
| `Communication.SortShifted` | src/communicator.rs:166-172 | Collecting shifted keys in map order and sorting them lists the protocol indices in ascending order. |
| `Communication.Communicator.ReceiveMessages` | src/communicator.rs:58-71 | A batch is stored if and only if it has one message per active share of the sender, at least one, and each has a broadcast or one unicast fewer than the threshold; it trips the assertion if and only if only the latter fails. Stored, the k-th message is in the inbox under the sender's k-th index, and all other entries are as before. |
| `Communication.Communicator.AwaitsDevice` | src/communicator.rs:74-78 | Searching the device's indices answers whether it is awaited. |
| `Communication.Communicator.RelayMessages` | src/communicator.rs:81-113 | The nested loops fill the outbox as the relay function says and empty the inbox. |
| `Communication.Communicator.SendToAll` | src/communicator.rs:116-127 | Every active index is sent its message and the inbox is emptied. |
| `Communication.Communicator.GetMessages` | src/communicator.rs:135-140 | A device gets one entry per active share, in the order of its indices. |
| `Communication.Communicator.GetFinalMessage` | src/communicator.rs:143-162 | The verifying loop computes the final message of the walk. |
| `Rounds.StartTaskOk` | src/tasks/sign.rs:85-91 | Starting opens round 1 with an empty inbox, or fails; it never listens and never finishes. |
| `Rounds.InitializeOk` | src/tasks/group.rs:214-216 | A group task begins with its certificates, any other with round 1 or a failure. |
| `Rounds.RestartOk` | src/tasks/group.rs:241-245 | A restart adds one attempt, opens round 1 with an empty inbox, or fails; nothing else of the task changes. |
| `Rounds.UpdateOk` | src/tasks/group.rs:218-239 | An update advances only below the last round and finalizes only at it, never sends certificates and keeps the task well formed. If it leaves the task as it was, it errs only to a device that is not awaited and panics only on a misshapen message; it panics or errs with a change if and only if the final step is a mishap, and the round has then moved on by one. |
| `Rounds.FinalizeOutcome` | src/tasks/group.rs:105-152 | The final step panics or errs if and only if the broadcasts do not agree, or agree on a GG18 group key that is not 65 bytes or a PDF signature that is not 64 bytes long, or the helper process that a PDF task and a GG18 group task end with does not answer; no other task depends on a helper or a length. |
| `Rounds.UpdatePanicsIff` | src/tasks/group.rs:252-253 | An update panics if and only if the batch is of an awaited device and has a misshapen message, or completes a last round whose broadcasts do not agree, or agree on a key or signature of the wrong length, or whose PDF helper does not answer. |
| `Rounds.UpdateResult` | src/tasks/group.rs:131-151 | A result is of the kind of its task; a new group has the task's threshold, protocol, key type and shares, and with GG18 a certificate and an id of 65 bytes. |
| `Progress.StoredBatchIsProgress` | src/tasks/sign.rs:121-149 | Every stored batch takes one unit of work off and decreases (rounds left, shares not yet heard) lexicographically. |
| `Progress.OtherBatchIsNoProgress` | src/tasks/sign.rs:136-142 | Any other batch leaves the task as it was. |
| `Progress.AttemptLength` | src/tasks/group.rs:154-164 | From the opening of a round, an attempt ends after exactly active devices times rounds left stored batches, and not before, whatever else is submitted in between. |
| `Attempts.AttemptTakesBatches` | src/tasks/group.rs:218-239 | In every run, from the opening of a round on and as long as the attempt stays in memory: the steps that store a batch for it number less than active devices times rounds left until the last one, and a step makes up that number if and only if it stores a batch and takes the task out of its gathering rounds. |
| `Progress.AttemptRounds` | src/tasks/group.rs:241-245 | Those rounds are all of the protocol's, plus the certificate round in the first attempt of a group task only. |
| `Progress.UnanimousFinishes` | src/tasks/sign.rs:98-119 | The batch that completes the last round, with every share's broadcast verifying to one and the same result, finishes the task if and only if that result has the length the task needs and the helper process, if it needs one, answers; then with that result. |
| `Progress.WorkIffSilent` | src/tasks/group.rs:198-204 | A device is given work if and only if it owns an active share and has not answered this round; the j-th entry is what the outbox has for its j-th index. |
| `Messages.InitializedGroupTells` | src/tasks/group.rs:166-190 | Initializing a group task hands every active share a message without unicasts whose broadcasts are, under each active index and no other, the certificate of the device that index belongs to. |
| `Messages.StartedTaskTells` | src/tasks/sign_pdf.rs:54-110 | Initializing or restarting any other task opens round 1 and hands every active share the data or, in a PDF task, the hash its helper process has just answered; a PDF task without a helper, or with an empty hash, fails for the reason that goes with it. |
| `Progress.IndexRange` | src/main.rs:57-64 | Protocol indices lie between the protocol's offset and that plus the number of shares; FROST's are never zero, as RFC 9591 asks of identifiers. |
| `RunningTasks.RunningTask.InitializeProtocol` | src/protocols/gg18.rs:32-46 | Sends every index its first message and sets the round to 1. |
| `RunningTasks.RunningTask.CollectCertificates` | src/tasks/group.rs:166-179 | The nested loop collects the certificates by index. |
| `RunningTasks.RunningTask.FinalizeTask` | src/tasks/group.rs:105-152 | Steps past the last round and makes the result, a failure, an error or a panic, the assertion on the length of a GG18 key included, as the final function says. |
| `RunningTasks.RunningTask.UpdateTask` | src/tasks/group.rs:218-239 | The object's update is the update function on its value. |
| `RunningTasks.RunningTask.RestartTask` | src/tasks/group.rs:241-245 | The object's restart is the restart function on its value. |
| `Refinement.AcceptedNotDeclined` | src/cached_task_store.rs:171-183 | The rows of an accepted task never look declined. |
| `Refinement.MatchesAgree` | src/cached_task_store.rs:145-355 | A cache entry that matches its rows is what rebuilding them gives: phase, tallies, who accepted, round, certificates flag, attempts, protocol, threshold, index map, result or reason. |
| `Refinement.GroupAcceptableIffSmall` | src/tasks/mod.rs:70-71 | The votes can accept a group request if and only if nobody holds more than 127 shares. |
| `Preservation.RebuiltMatches` | src/cached_task_store.rs:145-316 | Rebuilding from matching rows succeeds and matches them again. |
| `Preservation.NewGroupTaskMatches` | src/state.rs:87-132 | A new group task matches its rows. |
| `Preservation.NewThresholdTaskMatches` | src/state.rs:135-199 | A new task of a usable group matches its rows. |
| `Preservation.DecideKeepsMatches` | src/state.rs:424-496 | A vote on a sound task (one that cannot be accepted, or can be constructed) keeps it matched, whatever it decides and whatever is drawn, and is answered without reaching an unreachable arm. |
| `Preservation.AcceptedIsStarted` | src/state.rs:443-481 | The vote that accepts a sound task, a PDF task within its limits included, starts it, in its certificate round or round 1, with exactly the threshold's number of active shares, unless the helper process of a PDF task fails. |
| `Preservation.GroupFirstMessages` | src/protocols/gg18.rs:32-46 | Every share of a group task is told its own index, the number of shares taking part, and the threshold asked for, also where the message repeats the number of parties (MuSig2). |
| `Preservation.ThresholdFirstMessages` | src/protocols/gg18.rs:97-110 | Every share of a threshold task is told its own index, the data, and the same ascending list of all shares that are told anything. |
| `Preservation.EstablishedGroup` | src/persistence/postgres_repository/group.rs:107-125 | The group row copied from the task's rows is the group in memory and can run its protocol. |
| `Preservation.UpdateKeepsMatches` | src/state.rs:358-422 | An update keeps a task matched, also when it errs or panics, and adds at most one usable group. |
| `Preservation.RestartKeepsMatches` | src/state.rs:591-627 | A restart keeps a task matched. |
| `Preservation.AcknowledgeKeepsMatches` | src/state.rs:567-577 | An acknowledgement keeps a task matched. |
| `Invariant.NeverCreated` | src/state.rs:452-457 | A group request the protocol refuses, and a PDF request over its limits, is never constructed, whatever shares are active. |
| `Invariant.RebuiltUnstarted` | src/cached_task_store.rs:185-312 | Whatever a server restart makes of such a request, rebuilding does not start it: the rows stay as they are, and the entry is voting, declined, or seems to run before its first round. |
| `Invariant.UpdateUnstartedGroup` | src/tasks/group.rs:223-229 | A batch to a group request that was never constructed changes nothing and is answered by an error or a panic. |
| `Invariant.UpdateWaking` | src/tasks/sign_pdf.rs:141-149 | A batch to a PDF task over its limits that seems to run either leaves its rows alone or starts it, and then rows and entry match. |
| `Invariant.WakesIff` | src/tasks/sign_pdf.rs:169-180 | It is started if and only if the batch is of an awaited device, has no misshapen message and completes the inbox. |
| `Invariant.CandidateIffRunning` | src/persistence/postgres_repository/task.rs:267-276 | By its row a matched task is a candidate for restarts if and only if it is running. |
| `Invariant.RebuildKeeps` | src/cached_task_store.rs:145-316 | Rebuilding from rows that satisfy the invariant restores the invariant, and succeeds for every task that is sound or was started all the same. |
| `Soundness.AgreementIff` | src/state.rs:443-481 | For any task nobody has voted on, cache and rows agree after every sequence of votes, with any draws, times and activations, if and only if the votes cannot accept it or the server can construct it. |
| `Store.AdmittedIff` | src/protocols/mod.rs:11-65 | The five pairs of protocol and key type that can be run, from a threshold of 2 up to the number of shares, in MuSig2 with just that number. |
| `Store.Utf8LengthIs` | src/tasks/sign_pdf.rs:32 | The length counted against the limit is that of the name's encoding in UTF-8 (section 3 of RFC 3629). |
| `Soundness.GroupAgreementIff` | src/persistence/postgres_repository/task.rs:108-113 | For a new group task: if and only if somebody holds more than 127 shares, or protocol and key type are one of those five pairs and the threshold is from 2 to the number of shares, in MuSig2 all of them. |
| `Soundness.ThresholdAgreementIff` | src/tasks/sign_pdf.rs:25-42 | For a new task of a group: if and only if it is no PDF task, or the participants' best votes stay below the threshold, or the data have at most 8388608 bytes and the name in UTF-8 at most 256. |
| `Soundness.LongNameDisagrees` | src/persistence/utils.rs:7-13 | A PDF request named by 200 characters of two bytes each is admitted, and some votes make cache and rows disagree. |
| `Soundness.ThresholdOneDisagrees` | src/tasks/group.rs:40-47 | Two devices with a share each and threshold 1: some votes make cache and rows disagree. |
| `System.StepKeeps` | src/state.rs:358-627 | Every step of the server, each query and each single restart of the timer included, keeps the invariant of all tasks, groups, hydrations and passes. |
| `System.RunsKeepInv` | src/state.rs:382-624 | In every run the invariant holds in every state, and no request and no restart by the timer reaches an arm marked unreachable. |
| `System.SnapshotIsCurrent` | src/cached_task_store.rs:100-143 | A complete hydration of a task still uncached holds exactly the current rows, however its reads were interleaved with other requests. |
| `Runs.CacheAgreesWithRows` | src/cached_task_store.rs:145-355 | After any run, rebuilding a task from its rows gives the task the cache holds, if it is sound or was started all the same. |
| `Runs.CandidatesAreRunning` | src/persistence/postgres_repository/task.rs:261-281 | In every state the restart query selects exactly the running tasks, cached or not; of the requests that cannot be constructed it selects only those that were started all the same. |
| `Runs.RestartMeetsEndedOnly` | src/state.rs:591-597 | In every run, the timer's loop finds a task that is not running if and only if it has ended since the query. |
| `Runs.VotesSeparateEndings` | src/cached_task_store.rs:171-183 | In every run a failed task has fewer rejecting shares than the reject threshold, none for a group task, and a declined one reaches it. |
| `Runs.RunningTasksAreOk` | src/communicator.rs:58-78 | In every reachable state the inbox of a running task is a device-closed set of active indices; the task is well formed, in a known round and with some device awaited until the last one, unless it is a group request that cannot be constructed; a sound one has exactly the threshold's number of active shares. |
| `Runs.PdfHasCertificate` | src/tasks/sign_pdf.rs:93-96 | In every run, the group of a PDF task has the certificate that the start of its helper unwraps. |
| `Runs.StepKeepsEnding` | src/state.rs:366-370 | No step changes the row of an ended task other than by an acknowledgement. |
| `Runs.EndingsAreFinal` | src/state.rs:391-418 | A result once stored is the result in every later state, and the cache holds that ending or nothing. |
| `HydrationRuns.HydrationReplacesNothing` | src/cached_task_store.rs:91-96 | Filling the cache changes no row, no group and no entry already there. |
| `HydrationRuns.UncachedIsUntouched` | src/cached_task_store.rs:437-450 | While a hydration goes on, a task still uncached at the end was uncached and unchanged all the time. |
| `HydrationRuns.InstallIsExact` | src/cached_task_store.rs:86-98 | A hydration that finds its place vacant installs what the database says at that moment, and the task was left alone since before its first read. |
| `Timer.AttemptsTakeTime` | src/state.rs:579-603 | In every run, with passes interleaved with requests and with server restarts that lose the last-update map, a task restarted so many times was accepted at least 31 seconds for each of them ago. |
| `Timer.NoRestartSoonAfterUpdate` | src/state.rs:580-590 | Every restart stems from a query, and every update call before that query that found the task running, even one that was then refused, lies more than 30 seconds before the time the query reckons with. |
| `Timer.RestartMayFollowUpdate` | src/state.rs:591-601 | An update after the query does not keep the restart from following at the same time. |
| `Timer.WasAccepted` | src/state.rs:424-446 | In every run, a task with accepting votes on record was accepted by a vote at an earlier step. |
| `Timer.ClockStep` | src/state.rs:693-702 | A last-update entry is kept, made now, or lost. |
| `Timer.TimeStep` | src/state.rs:693-702 | The present time is put down for a task by a vote that finds it voted on, an update or a restart that finds it running, and a query that finds it under way without a time; a server restart loses all times, and no other step changes one. |
| `Timer.DueIffStale` | src/state.rs:580-590 | In every run, a query puts on the timer's list, each once, exactly the tasks on record as begun and not ended whose last update lies more than 30 seconds before the time it reckons with. |
| `Timer.AttemptsStep` | src/state.rs:598-603 | A restart by the timer adds one to the attempts on record, and nothing else changes them. |
| `Timer.PassStep` | src/state.rs:580-597 | A query fills the list of tasks to restart; a restart takes the first one off, or all if that one is not running; and nothing but a server restart otherwise changes it. |
| `Requests.TaskIsAsRequested` | src/state.rs:72-270 | In every run, every task was asked for by a request at an earlier step, and its row still has that request's own name, data and group, the threshold, protocol and key type asked for or of that group, and exactly the devices and shares named or of that group. |
| `Requests.DevicesAreRegistered` | src/state.rs:58-71 | In every run, every device of a task, with its certificate, is one that was registered at an earlier step, through the rows of tasks and groups. |
| `Requests.MemoryFollowsRows` | src/cached_task_store.rs:145-316 | In every run, a task in memory has the name, kind, protocol, key type, attempt number and participants of its row, and while it is open also its data, its group, the number of shares that must accept, and the operation of its kind. |
| `Requests.GroupRequestAnswer` | src/persistence/utils.rs:7-13 | A group request is admitted if and only if its name has 1 to 256 characters and no control character, and its threshold is from 1 to the number of shares; otherwise it is refused and nothing changes. |
| `Requests.TaskRequestAnswer` | src/state.rs:135-270 | A signing or decryption request is admitted if and only if it is made to a known group of that kind, under such a name; otherwise it is refused and nothing changes. |
| `Messages.SharesInByteOrder` | src/state.rs:505-517 | In every run, of two indices of a started task that belong to different devices, the lower one belongs to the device whose id comes first byte by byte. |
| `Messages.CertificatesAreTold` | src/tasks/group.rs:166-190 | In every run, as long as a group task is in its certificate round, each active share is handed the certificates of the devices of all active indices, by index, and nothing else. |
| `Messages.FirstMessagesAreTold` | src/protocols/gg18.rs:32-46 | In every run, as long as round 1 is open, each share of a group task is handed its index, the number of active shares and the threshold on record; each share of another task its index, the ascending list of all active ones, and the data on record or the hash of the PDF. |
| `Messages.RequestIsTold` | src/protocols/gg18.rs:97-110 | In every run, what a share of a signing or decryption task is handed in round 1 are the data that the request for the task came with. |
| `Messages.StartIsTold` | src/state.rs:443-481 | In every run, the vote that starts a task leaves something to hand out to every active share, in the certificate round of a group task and in round 1 of any other; so does every restart, in round 1. |
| `Messages.StartedGroupTells` | src/tasks/group.rs:214-216 | In every run, once the vote is over that starts a group task, each active share is handed the certificates of the devices of all active indices, by index, and nothing else. |
| `Messages.SilentIsLoaded` | src/cached_task_store.rs:318-355 | In every run, a running task has nothing to hand out only if its entry was loaded into the cache and neither a round nor an attempt has begun since. |
| `Messages.HashIsHelpers` | src/tasks/sign_pdf.rs:93-109 | In every run, the hash the shares of a PDF task work on is what the helper process answered when the attempt was started, in memory ever since, and not empty. |
| `Ballots.VoteDecides` | src/state.rs:424-496 | In every run, the vote of a participant is on record as cast, and then the task is declined, has been started, or is still voted on, by the sums of the votes on record, each cast to a signed byte, and by whether it can be made. |
| `Ballots.VoteReply` | src/state.rs:430-457 | In every run, a vote is answered by a success if and only if the task is voted on, the device takes part, and the votes do not accept a task that cannot be made. |
| `Ballots.RecordsAreExact` | src/persistence/postgres_repository/task.rs:282-348 | In every run and at every step, who voted how and who acknowledged is changed only by the vote or acknowledgement of a participant, and only for that participant. |
| `Ballots.DrawIsOnRecord` | src/persistence/postgres_repository/task.rs:395-421 | In every run and at every step, the active shares on record change only by the participant's vote that accepts the task, which puts down for each device that has none how many of its shares were drawn. |
| `Outcomes.FinishesIff` | src/state.rs:399-418 | In every run, a running task is finished by a step if and only if it brings a batch for its current attempt with which, in the last round, the broadcast of every active share verifies under the certificate of its device to one and the same message, and that fits: 65 bytes and a certificate for a GG18 group, an id not empty and not in use for any group, 64 bytes and an answer of the helper for a PDF. Memory and row then have that signature, plaintext or PDF, or the group with that id, which alone is added, with the parameters and participants of the task. |
| `Outcomes.FailureIsTold` | src/tasks/group.rs:105-113 | In every run, a task fails only at its start or restart, if it is a PDF task and its helper cannot be used or makes no hash, or in its last round over a broadcast that does not verify; the reason on record is the one that goes with it. |
| `Outcomes.ProperBatchIsTaken` | src/communicator.rs:58-71 | In every run, a batch of an unheard device for the current attempt of a task that can be made, one message per active share, each with a broadcast or addressed to all active shares but one, is taken while another device is awaited: the call succeeds, and the inbox has its messages by index and otherwise what it had. |
| `Outcomes.MishapAwaits` | src/tasks/sign_pdf.rs:116-140 | After a final step that did not go through nobody is awaited, except in a PDF task on whose signature all shares agree, where everybody is awaited anew. |
| `Outcomes.BatchRefusedIff` | src/state.rs:365-381 | In every run, a batch is refused if and only if the task is not running or in another attempt, or the device has no active share or has answered already, or all shares agree on a group that gets no certificate or whose id is empty or in use. |
| `Outcomes.ReceiptReply` | src/state.rs:567-577 | In every run, an acknowledgement is accepted, and noted in memory, if and only if the task is finished. |
| `Origins.WasRequested` | src/state.rs:272-279 | Every task was made by a request, and its kind, protocol, threshold, data, devices and shares have not changed since. |
| `Origins.StepExtendsGroups` | src/persistence/postgres_repository/group.rs:87-105 | Groups are never changed or removed. |
| `Origins.GroupTaskUsesAll` | src/state.rs:542-564 | A running group task uses every index of the full numbering. |
| `Origins.IndicesStayWithDevices` | src/state.rs:505-507 | In every run, the index map of a running signing or decryption task is a submap of the one in use when its group was established. |
| `Origins.SharesRoundTrip` | src/main.rs:167-185 | In every run, a group is reported with exactly the known devices of the request that made it, each as often as it was named, through counting, task rows, group rows and expansion in any order. |
| `Isolation.InboxesAreIsolated` | src/state.rs:372-380 | In every run, every message in an inbox was submitted under the task's current attempt number and in its current round, and has been there since: nothing in it is older than the last clearing. |
| `Isolation.RelayedMessagesAreIsolated` | src/communicator.rs:81-127 | In every run, every client message inside a relayed output was submitted under the current attempt number, in the round before, and stayed in the inbox until it was relayed to another share. |
| `Isolation.EveryMessageIsHandedOn` | src/communicator.rs:81-113 | In every run, when a round completes, every active share has submitted a message in it under this attempt number that stayed in the inbox until then; its broadcast is handed to every other active share, and what it addressed to one is handed to that one. |
| `SharesOnRecord.AcceptedHasShares` | src/state.rs:547-553 | In every run, shares are on record in full or not at all, and a task whose votes on record accept it has at least the threshold's number of them; the same of whatever a hydration has read, however its reads were interleaved with votes. |
| `SharesOnRecord.VoteCrashesIff` | src/communicator.rs:28-34 | A vote panics if and only if it is the yes of the device that a group request names alone, and once. |
| `SharesOnRecord.RebuildPanicsIff` | src/cached_task_store.rs:326-355 | Rebuilding panics if and only if what was read is a group request of one share, not ended, whose votes accept it. |
| `SharesOnRecord.LoneIsLost` | src/cached_task_store.rs:86-98 | In every run, such a request, once out of the cache, is never cached again and its rows never change. |
| `Divergence.CrashesIff` | src/communicator.rs:28-71 | In every run, a request panics if and only if it is: a batch of an awaited device for the current attempt that has a misshapen message, or completes a last round whose broadcasts do not agree, or agree on a result of the wrong length, or whose PDF helper does not answer, or goes to a group request that cannot be constructed; the yes of the device that a group request names alone and once; or the loading of such a request, accepted, into the cache. |
| `Divergence.UpdateParts` | src/state.rs:382-399 | After an update that leaves a task running, stored and live round differ if and only if they did before or the batch completed the last round with a mishap. |
| `Divergence.RoundsPartIff` | src/protocols/gg18.rs:55-59 | In every run, they differ if and only if the final step of the current attempt did not go through and neither the task nor the server has been restarted since. |
| `Divergence.RestartRejoins` | src/state.rs:602-617 | A restart of the task, and refilling the cache after a restart of the server, brings them together. |
| `Divergence.DroppedIff` | src/tasks/group.rs:231-238 | To an awaited device, an update answers without an error and without effect if and only if the batch is empty or has not one message per active share of the device. |
| `Divergence.BatchDroppedIff` | src/communicator.rs:58-61 | The same of every request in every run. |
| `Divergence.AcknowledgementsPartIff` | src/state.rs:567-577 | In every run, the acknowledgements in memory and in the database differ if and only if a device that does not take part has acknowledged the task since its entry was filled. |
| `Instances.DifferingResultsPart` | src/communicator.rs:154-157 | A run from an empty database: two devices send different results in the last round; the call panics, the live round is 2 and the stored one 1. |
| `Instances.TwoMessagesAreDropped` | src/communicator.rs:58-61 | A run: a device with one share sends two messages, gets a success, and is awaited as before. |
| `Instances.UnicastsAreCounted` | src/communicator.rs:64-66 | A run: of two devices with a share each one sends a message without a broadcast; it is stored if it addresses one share, and the call panics if it addresses none or more. |
| `Instances.StrangerIsNotStored` | src/state.rs:574-575 | A run: a finished task is acknowledged by another device; memory records it and the database does not. |
| `Instances.RestartFollowsUpdate` | src/state.rs:580-601 | A run: an update comes after the timer's query, and the restart follows at the same time. |
| `Instances.LoneDeviceCrashes` | src/tasks/mod.rs:263-268 | A run, for every protocol and key type: a device asks for a group of itself alone with threshold 1 and accepts; the vote panics. |
| `Instances.LoneDeviceIsLost` | src/cached_task_store.rs:350-354 | A run: after a restart of the server, loading that request panics. |
| `Passes.LeadsProlongs` | src/state.rs:579-627 | Steps in sequence from the last state of a run prolong it to a run, so that what holds of all runs holds after every sequence of calls. |
| `Servers.Repository.AddGroup` | src/persistence/postgres_repository/group.rs:87-125 | Refuses an empty or used id, otherwise stores the group with the task's participants. |
| `Servers.Repository.CreateTask` | src/persistence/postgres_repository/task.rs:115-135 | Inserts the task and one row per participant. |
| `Servers.FromModel` | src/cached_task_store.rs:145-316 | Reading phase and contents off result, votes and counts computes the rebuild function, and tells exactly when it panics. |
| `Servers.RebuildRunning` | src/cached_task_store.rs:318-355 | Rebuilds the running task with the index map of the stored counts, and tells when the communicator's assertion fires instead. |
| `Servers.Server.DecideTask` | src/state.rs:424-496 | The handler's sequence of changes is the vote step of the model. |
| `Servers.Server.SettleTask` | src/state.rs:443-495 | Declining, or drawing, storing, constructing and starting, is what the model says follows from the votes, an error and a panic of the construction included. |
| `Servers.Server.UpdateTask` | src/state.rs:358-422 | The handler's sequence of changes is the update step of the model. |
| `Servers.Server.TakeBatch` | src/state.rs:365-421 | A stale or misplaced batch is refused; any other is handed to the task, and what comes of it is stored as the model says. |
| `Servers.Server.FinishTask` | src/state.rs:399-418 | Round, group and result are stored in turn: memory has the given result, the row its bytes, and a new group the parameters of the result and the participants of the task; a group with an empty or used id is refused and leaves the task running. |
| `Servers.Server.AcknowledgeTask` | src/state.rs:567-577 | The handler is the acknowledgement step. |
| `Servers.Server.PickStale` | src/state.rs:580-590 | Candidates without a last update get one; the stale ones are those whose last update lies more than 30 seconds before the time read at the beginning. |
| `Servers.Server.RestartOne` | src/state.rs:598-624 | Counts the attempt and stores how the restart went. |
| `Servers.Server.BeginPass` | src/state.rs:580-590 | Querying and filtering is the query step of the model. |
| `Servers.Server.RestartNextTask` | src/state.rs:591-625 | One round of the loop is the restart step of the model, for a task found not running as well. |
| `Servers.Server.RestartStaleTasks` | src/state.rs:579-627 | A whole pass, with due tasks that are not cached, is a sequence of steps of the model; undisturbed it succeeds, begins the next attempt of exactly the stale candidates, and leaves all other rows alone. |
| `Servers.Server.AddGroupTask` | src/state.rs:72-133 | Counting, looking up known devices and creating the task is the group request step, refusals of name and threshold included. |
| `Servers.Server.Participants` | src/state.rs:87-99 | The known devices among the requested ones, each once, with as many shares as it was named times. |
| `Servers.Server.AddThresholdTask` | src/state.rs:135-270 | Creating a task of a group is the threshold request step: row and entry have the given name, data and group, and the group's threshold, protocol and key type; an unknown group, a group of the other kind and an invalid name are refused and change nothing. |
| `Servers.Server.InstallHydrated` | src/cached_task_store.rs:86-98 | The task is rebuilt from whatever was read, an error or a panic of that included, and put in the cache only where there is none. |
| `Servers.Server.EnsureCached` | src/cached_task_store.rs:86-98 | Filling the cache with one task is a sequence of steps of the model that keeps every entry there; it ends with the task cached if and only if it was or its rows can be rebuilt. |
| `Servers.Server.Restart` | src/state.rs:47-54 | Cache, last updates, device activations, hydrations and passes are gone, the database stays. |
| `Servers.Server.Advance` | src/state.rs:693-695 | The clock moves on as in the waiting step of the model. |

## Left out

- TLS, JWT, the gRPC interface, subscribers, observers, notifications, logging and the command line: I/O only; the unwraps on malformed requests in the gRPC layer, and the slice of a short device id when a notification fails, are not modelled.
- SQL, migrations and pooling: replaced by maps from keys to rows; notes, request blobs and the names of devices and groups are dropped.
- Failures of database calls, crashes between two writes of one handler, and the moment between inserting a new task's row and its cache entry: the code does not make these atomic.
- The bodies of the helper processes that handle PDFs and issue certificates: their answers are parameters.
- The table of running PDF helpers and its lock: a helper lost by a restart of the server is a helper that does not answer at the end, which the model has; but the panic then poisons the lock, after which every start of a PDF task panics once its draw is stored. `AcceptedIsStarted`, `CacheAgreesWithRows` and `CrashesIff` do not cover PDF tasks from then on.
- The protocols of `meesign_crypto`: round counts and signature verification are parameters; the four protocol files share one round machine.
- The `u16` and `u32` widths of rounds, attempts, indices and shares: unbounded here; only the signed byte of the vote is modelled.
- Builds with overflow checks, where rejecting with 128 shares (or 384, and so on) panics instead of wrapping.
- Reading many tasks in one hydration: hydrations here are of one task each, with any number of them at a time.
- Timestamps of the last activation of devices are a parameter of the vote step: the theorems hold for all of them.
- The moment within the timer's query between reading the candidates and looking up their last updates: one step here.
