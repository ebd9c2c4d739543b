/** What devices are handed in every run: certificates, first messages, relayed ones. */
module Messages {
  import opened Basics
  import opened Shares
  import opened Voting
  import opened Communication
  import opened Rounds
  import opened Progress
  import opened Store
  import opened Handlers
  import opened Refinement
  import opened Preservation
  import opened Invariant
  import opened System
  import opened Runs
  import opened Isolation
  import opened Requests

  // ------------------------------------------------------------- what a task hands out

  ghost function Announcement(run: Run): map<nat, ServerMessage> {
    map j | j in Indices(run.comm) :: Relayed(run.protocol, map[], Certificates(run.info.participants, run.comm))
  }

  ghost function FirstMessages(run: Run): map<nat, ServerMessage> {
    map j | j in Indices(run.comm) :: InitMessage(run, j)
  }

  /** Nothing; or in the certificate round the certificates; or in round 1 the messages
      that open it; from round 2 on what is relayed. */
  ghost predicate Hands(env: Env, run: Run) {
    && (!run.info.kind.PdfTask? ==> run.preprocessed.None?)
    && (|| run.comm.output == map[]
        || (run.round == 0 && run.comm.output == Announcement(run))
        || (OpenRound(env, run) == 1 && run.comm.output == FirstMessages(run)
            && (run.info.kind.PdfTask? ==> run.preprocessed.Some?))
        || OpenRound(env, run) >= 2)
  }

  /** Two states of a task that hand out the same. */
  ghost predicate SameHands(env: Env, run: Run, run': Run) {
    && SameTask(run, run') && run'.comm.output == run.comm.output && run'.preprocessed == run.preprocessed
    && OpenRound(env, run') == OpenRound(env, run) && (run'.round == 0 <==> run.round == 0)
  }

  lemma HandsStay(env: Env, run: Run, run': Run)
    requires Hands(env, run) && SameHands(env, run, run')
    ensures Hands(env, run')
  {
    hide Certificates, Ascend, TotalShares;
    assert Indices(run'.comm) == Indices(run.comm) by { SameOwners(run.comm, run'.comm); }
    hide Indices;
    CertificatesSame(run.info.participants, run.comm, run'.comm);
  }

  lemma {:induction false} CertificatesSame(ps: seq<Participant>, c: Comm, c': Comm)
    requires c'.active == c.active && c'.protocol == c.protocol
    ensures Certificates(ps, c') == Certificates(ps, c)
  {
    if ps != [] {
      CertificatesSame(ps[1..], c, c');
      SameOwners(c, c');
    }
  }

  // ------------------------------------------------------------------------ starting

  lemma InitSame(run: Run, run': Run, j: nat)
    requires run'.context == run.context && run'.info == run.info && run'.protocol == run.protocol
    requires run'.preprocessed == run.preprocessed && Indices(run'.comm) == Indices(run.comm)
    ensures InitMessage(run', j) == InitMessage(run, j)
  {
    hide TotalShares, Ascend, Indices;
  }

  lemma StartedTells(run: Run)
    ensures Started(run).comm.output == FirstMessages(Started(run)) && Started(run).round == 1
    ensures Started(run).preprocessed == run.preprocessed && Started(run).info == run.info
    ensures Started(run).protocol == run.protocol && Started(run).operation == run.operation
  {
    hide InitMessage;
    var run' := Started(run);
    SameOwners(run.comm, run'.comm);
    hide Indices;
    forall j | j in Indices(run.comm) ensures run'.comm.output[j] == InitMessage(run', j) {
      InitSame(run, run', j);
    }
  }

  /** A task that has just been started hands out its first messages; the data of a PDF
      task is the hash the helper has answered. */
  lemma StartTells(env: Env, run: Run, helper: Helper)
    requires ValidEnv(env) && (!run.info.kind.PdfTask? ==> run.preprocessed.None?)
    ensures var (run', u) := StartTask(run, helper);
            && (u.NextRound? || u.Failed?)
            && (u.NextRound? ==>
                  && run'.round == 1 && run'.comm.output == FirstMessages(run') && Hands(env, run')
                  && run'.info == run.info
                  && (run.info.kind.PdfTask? ==> HashMade(helper))
                  && run'.preprocessed == (if run.info.kind.PdfTask? then helper.start else None))
  {
    hide Started, FirstMessages, Announcement;
    StartedTells(run);
    StartedTells(run.(preprocessed := helper.start));
  }

  lemma CertificatesTold(env: Env, run: Run)
    requires run.round == 0 && (!run.info.kind.PdfTask? ==> run.preprocessed.None?)
    ensures SendCertificates(run).comm.output == Announcement(SendCertificates(run)) && Hands(env, SendCertificates(run))
  {
    hide TotalShares, Ascend, Certificates;
    SameOwners(run.comm, SendCertificates(run).comm);
    CertificatesSame(run.info.participants, run.comm, SendCertificates(run).comm);
    hide Indices;
  }

  lemma InitializeHands(env: Env, run: Run, helper: Helper)
    requires ValidEnv(env) && run.round == 0 && run.preprocessed.None?
    ensures var (run', u) := Initialize(run, helper);
            && (u.CertificatesSent? ==> Hands(env, run') && run'.comm.output == Announcement(run'))
            && (u.NextRound? ==> Hands(env, run') && run'.comm.output == FirstMessages(run'))
  {
    hide StartTask, SendCertificates, Hands, Announcement, FirstMessages;
    StartTells(env, run, helper);
    CertificatesTold(env, run);
  }

  // ------------------------------------------------------------------------ updating

  /** What an update makes of a task, as far as what it hands out. */
  lemma UpdateShape(env: Env, run: Run, device: Bytes, msgs: seq<ClientMessage>, order: seq<nat>, helper: Helper)
    requires ValidEnv(env) && RunOk(env, run) && Enumerates(order, AfterReceiving(run, device, msgs).comm.input.Keys)
    ensures var (run', u) := Update(env, run, device, msgs, order, helper);
            var after := AfterReceiving(run, device, msgs);
            || u.Failed?
            || SameHands(env, run, run')
            || (run.round == 0 && u == NextRound(1) && (run', u) == StartTask(after, helper))
            || (run' == Advanced(after) && 1 <= run.round < LastRound(env, run))
  {
    hide DeviceClosed, Enumerates, WaitingFor, Receives, RoundReceived, Gathered, FinalFrom, Finalize, StartTask,
         SendCertificates, Relay;
    ReceivingKeepsClosed(run, device, msgs);
    GatheringKeepsTask(run, device, msgs);
    var after := AfterReceiving(run, device, msgs);
    if after.round == LastRound(env, after) {
      assert after.comm.input.Keys <= Indices(after.comm) by { ClosedWithin(after.comm); }
      FinalizeShape(env, after, order, helper);
    }
    StartTaskOk(env, after, helper);
    hide AfterReceiving;
  }

  lemma AdvancedHands(env: Env, run: Run)
    requires 1 <= run.round < LastRound(env, run) && (!run.info.kind.PdfTask? ==> run.preprocessed.None?)
    ensures Hands(env, Advanced(run))
  {
    hide Relay;
  }

  lemma UpdateHands(env: Env, run: Run, device: Bytes, msgs: seq<ClientMessage>, order: seq<nat>, helper: Helper)
    requires ValidEnv(env) && RunOk(env, run) && Enumerates(order, AfterReceiving(run, device, msgs).comm.input.Keys)
    requires Hands(env, run)
    ensures var (run', u) := Update(env, run, device, msgs, order, helper); u.Failed? || Hands(env, run')
  {
    hide DeviceClosed, Enumerates, AfterReceiving, Update, StartTask, Advanced, Announcement, FirstMessages, SameHands,
         RoundReceived;
    UpdateShape(env, run, device, msgs, order, helper);
    var (run', u) := Update(env, run, device, msgs, order, helper);
    var after := AfterReceiving(run, device, msgs);
    GatheringKeepsTask(run, device, msgs);
    if SameHands(env, run, run') {
      HandsStay(env, run, run');
    } else if run' == Advanced(after) && 1 <= run.round < LastRound(env, run) {
      AdvancedHands(env, after);
    } else if !u.Failed? {
      StartTells(env, after, helper);
    }
  }

  // ---------------------------------------------------------------------- every step

  ghost predicate TaskHands(env: Env, task: Task) {
    task.RunningPhase? ==> Hands(env, task.run)
  }

  lemma CreatedUnhashed(task: Task, active: map<nat, Device>)
    requires task.VotingPhase? && CreateRun(task, active).Some?
    ensures CreateRun(task, active).value.preprocessed.None? && CreateRun(task, active).value.round == 0
  {
    hide TotalShares, SortById, WithinPdfLimits, NewComm;
  }

  lemma SettleHands(env: Env, row: TaskRow, task: Task, chosen: seq<Device>, helper: Helper)
    requires ValidEnv(env) && task.VotingPhase?
    ensures TaskHands(env, Settle(row, task, chosen, helper).0.task)
  {
    hide Verdict, TotalShares, CreateRun, Initialize, ActiveMap, Tally, Hands, Unmade;
    var active := ActiveMap(task.info.participants, Tally(chosen));
    if CreateRun(task, active).Some? {
      CreatedUnhashed(task, active);
      InitializeHands(env, CreateRun(task, active).value, helper);
    }
  }

  lemma DecideHands(env: Env, slot: Slot, id: Bytes, accept: bool, chosen: seq<Device>, helper: Helper)
    requires ValidEnv(env) && TaskHands(env, slot.task)
    ensures TaskHands(env, Decide(slot, id, accept, chosen, helper).0.task)
  {
    hide Settle, WithVote, IdSet, StoreDecision, TaskHands;
    if slot.task.VotingPhase? {
      SettleHands(env, StoreDecision(slot.row, id, accept), WithVote(slot.task, id, accept), chosen, helper);
    }
  }

  lemma UpdateTaskHands(env: Env, groups: Groups, slot: Slot, device: Bytes, msgs: seq<ClientMessage>,
                        attempt: nat, order: seq<nat>, helper: Helper)
    requires ValidEnv(env) && TaskInv(env, groups, slot.row, slot.task) && Applies(slot.task, device, msgs, order)
    requires TaskHands(env, slot.task)
    ensures TaskHands(env, UpdateTask(env, groups, slot, device, msgs, attempt, order, helper).0.task)
  {
    hide TaskInv, Update, Hands, Sound, DeviceClosed, Enumerates, AfterReceiving, RunOk, NewGroup, ResultBytes;
    if slot.task.RunningPhase? && attempt == slot.task.run.info.attempts {
      RunningIsOk(env, groups, slot.row, slot.task);
      if Sound(slot.row) || !slot.row.kind.GroupTask? {
        UpdateHands(env, slot.task.run, device, msgs, order, helper);
      } else {
        UncertifiedGroup(env, groups, slot.row, slot.task);
        UncertifiedUpdate(env, slot.task.run, device, msgs, order, helper);
      }
    }
  }

  lemma UncertifiedUpdate(env: Env, run: Run, device: Bytes, msgs: seq<ClientMessage>, order: seq<nat>, helper: Helper)
    requires DeviceClosed(run.comm) && Enumerates(order, AfterReceiving(run, device, msgs).comm.input.Keys)
    requires run.info.kind.GroupTask? && !run.certificatesSent
    ensures Update(env, run, device, msgs, order, helper).0 == run
    ensures var u := Update(env, run, device, msgs, order, helper).1; u == Refused || u == Panicked
  {
    hide DeviceClosed, Enumerates, AfterReceiving, WaitingFor, Receives, RoundReceived, NextStep;
  }

  lemma RestartHands(env: Env, slot: Slot, helper: Helper)
    requires ValidEnv(env) && TaskHands(env, slot.task)
    ensures TaskHands(env, RestartTask(slot, helper).0.task)
  {
    hide StartTask, Announcement, FirstMessages;
    if slot.task.RunningPhase? {
      var run := slot.task.run;
      StartTells(env, run.(info := run.info.(attempts := run.info.attempts + 1)), helper);
    }
  }

  lemma RebuildHands(env: Env, groups: Groups, row: TaskRow, ps: seq<Participant>)
    ensures var task := Rebuild(groups, row, ps);
            task.Some? && task.value.RunningPhase? ==>
              task.value.run.comm.output == map[] && task.value.run.preprocessed.None? && Hands(env, task.value.run)
  {
    hide TotalShares, Accepts, Rejects, StoredVotes, ActiveMap, SupportedPair, StoredAcks, Announcement, FirstMessages;
  }

  lemma InstallHands(env: Env, s: Sys, h: nat, tid: nat)
    requires h in s.hydrations && Complete(s.hydrations[h]) && s.hydrations[h].tid == tid && tid !in s.cache
    ensures var s' := Installed(s, h);
            tid in s'.cache ==>
              && TaskHands(env, s'.cache[tid])
              && (s'.cache[tid].RunningPhase? ==> s'.cache[tid].run.preprocessed.None?)
  {
    hide Rebuild, Hands, Snapshot;
    var hydration := s.hydrations[h];
    RebuildHands(env, hydration.groups.value, Snapshot(hydration), hydration.listing.value);
  }

  lemma HandledHands(env: Env, s: Sys, step: Step, tid: nat)
    requires ValidEnv(env) && Enabled(s, step) && Touches(s, step, tid) && tid in s.rows && tid in s.cache
    requires TaskInv(env, s.groups, s.rows[tid], s.cache[tid]) && TaskHands(env, s.cache[tid])
    ensures TaskHands(env, Handled(env, s, step, tid).task)
  {
    hide Decide, UpdateTask, RestartTask, StoreAck, TaskInv, Hands, Draws, Applies;
    var slot := SlotOf(s, tid);
    match step
    case CastVote(_, device, accept, _, chosen, helper) => DecideHands(env, slot, device, accept, chosen, helper);
    case Submit(_, device, msgs, attempt, order, helper) =>
      UpdateTaskHands(env, s.groups, slot, device, msgs, attempt, order, helper);
    case Confirm(_, _) =>
    case RestartNext(helper) => RestartHands(env, slot, helper);
  }

  lemma VotingHands(env: Env, task: Task)
    requires task.VotingPhase?
    ensures TaskHands(env, task)
  {
  }

  lemma HandsStep(env: Env, s: Sys, step: Step, tid: nat)
    requires ValidEnv(env) && Inv(env, s) && Enabled(s, step) && tid in Apply(env, s, step).cache
    requires tid in s.cache ==> TaskHands(env, s.cache[tid])
    ensures TaskHands(env, Apply(env, s, step).cache[tid])
  {
    hide *;
    var s' := Apply(env, s, step);
    CacheHasRows(env, s);
    StepKeeps(env, s, step);
    CacheHasRows(env, s');
    if tid !in s.rows {
      NewTaskIsVoting(env, s, step, tid);
      VotingHands(env, s'.cache[tid]);
    } else if !Touches(s, step, tid) {
      Untouched(env, s, step, tid);
      AloneParts(s, step, s', tid);
      if step.Reboot? {
        RebootEmpties(env, s);
      } else if tid !in s.cache {
        InstallIs(env, s, step);
        InstallHands(env, s, step.h, tid);
      }
    } else {
      InvParts(env, s, tid);
      TouchedStep(env, s, step, tid);
      HandledHands(env, s, step, tid);
      SlotParts(s', tid);
    }
  }

  lemma {:induction false} RunsHand(env: Env, b: seq<Sys>, steps: seq<Step>, n: nat, tid: nat)
    requires ValidEnv(env) && Behaviour(env, b, steps) && n < |b| && tid in b[n].cache
    ensures TaskHands(env, b[n].cache[tid])
    decreases n
  {
    hide *;
    BeginsEmpty(env, b, steps);
    assert n > 0;
    StepAt(env, b, steps, n);
    RunsKeepInv(env, b, steps, n - 1);
    if tid in b[n - 1].cache {
      RunsHand(env, b, steps, n - 1, tid);
    }
    HandsStep(env, b[n - 1], steps[n - 1], tid);
  }

  // ------------------------------------------------------------ what is handed out

  lemma OpenedMatches(env: Env, groups: Groups, row: TaskRow, task: Task)
    requires TaskInv(env, groups, row, task) && task.RunningPhase? && Opened(task.run)
    ensures RowBase(groups, row) && RunningMatches(env, groups, row, task.run)
  {
    hide Tracked, Listing, RowBase, RunOk, ActiveMatches, AcceptedRow, ContextOf, Startable, DeviceClosed,
         CountsWithin;
  }

  lemma OwnersInOrder(c: Comm, ps: seq<Participant>, counts: map<Bytes, nat>, i: nat, j: nat)
    requires DistinctIds(ps) && c.active == ActiveMap(ps, counts) && i in Indices(c) && j in Indices(c) && i < j
    requires OwnerOf(c, i).id != OwnerOf(c, j).id
    ensures InByteOrder(OwnerOf(c, i).id, OwnerOf(c, j).id)
  {
    hide ActiveMap, DistinctIds, Shift;
    IndicesInByteOrder(ps, counts, i - IndexOffset(c.protocol), j - IndexOffset(c.protocol));
  }

  /** In every run, of two indices of a started task that belong to different devices, the
      lower one belongs to the device whose id comes first byte by byte. */
  lemma SharesInByteOrder(env: Env, b: seq<Sys>, steps: seq<Step>, n: nat, tid: nat, i: nat, j: nat)
    requires ValidEnv(env) && Behaviour(env, b, steps) && n < |b| && tid in b[n].cache && b[n].cache[tid].RunningPhase?
    requires var run := b[n].cache[tid].run;
             && (run.round >= 1 || run.certificatesSent) && i in Indices(run.comm) && j in Indices(run.comm) && i < j
             && OwnerOf(run.comm, i).id != OwnerOf(run.comm, j).id
    ensures var c := b[n].cache[tid].run.comm;
            InByteOrder(OwnerOf(c, i).id, OwnerOf(c, j).id)
  {
    hide ReplyTo, Behaviour, Inv, TaskInv, RowInv, RowBase, RunOk, AcceptedRow, ContextOf, Startable, ActiveMap,
         Listing, Indices, OwnerOf, DistinctIds, RoundMatches;
    RunsKeepInv(env, b, steps, n);
    InvParts(env, b[n], tid);
    var row, run := b[n].rows[tid], b[n].cache[tid].run;
    OpenedMatches(env, b[n].groups, row, b[n].cache[tid]);
    ListingDistinct(row.participants, run.info.participants);
    OwnersInOrder(run.comm, run.info.participants, row.active, i, j);
  }

  /** The certificates: each share is told, under every active index and no other, the
      certificate of the device that index belongs to. */
  lemma AnnouncementSays(run: Run, counts: map<Bytes, nat>, i: nat, j: nat)
    requires DistinctIds(run.info.participants) && run.comm.active == ActiveMap(run.info.participants, counts)
    requires i in Indices(run.comm) && j in Indices(run.comm)
    ensures j in Announcement(run)
    ensures var told := Announcement(run)[j];
            && told.Relayed? && told.protocol == run.protocol && told.unicasts == map[]
            && told.broadcasts.Keys == Indices(run.comm) && told.broadcasts[i] == OwnerOf(run.comm, i).certificate
  {
    hide Indices, OwnerOf, DistinctIds, ActiveMap, Certificates;
    forall k ensures k in Certificates(run.info.participants, run.comm) <==> k in Indices(run.comm) {
      CertificatesExact(run, counts, k);
    }
    CertificatesExact(run, counts, i);
  }

  lemma HandedCertificates(env: Env, groups: Groups, row: TaskRow, task: Task, i: nat, j: nat)
    requires TaskInv(env, groups, row, task) && task.RunningPhase? && Hands(env, task.run)
    requires task.run.round == 0 && task.run.certificatesSent && task.run.comm.output != map[]
    requires i in Indices(task.run.comm) && j in Indices(task.run.comm)
    ensures var c := task.run.comm;
            && j in c.output && c.output[j].Relayed? && c.output[j].unicasts == map[]
            && c.output[j].broadcasts.Keys == Indices(c) && c.output[j].broadcasts[i] == OwnerOf(c, i).certificate
  {
    hide TaskInv, RowBase, Indices, OwnerOf, DistinctIds, ActiveMap, Certificates, Announcement, FirstMessages,
         Listing, RunOk, AcceptedRow, ContextOf, Startable;
    OpenedMatches(env, groups, row, task);
    ListingDistinct(row.participants, task.run.info.participants);
    AnnouncementSays(task.run, row.active, i, j);
  }

  /** In every run, as long as a group task is in its certificate round, each share is
      handed the certificates of the devices of all active indices, and nothing else. */
  lemma CertificatesAreTold(env: Env, b: seq<Sys>, steps: seq<Step>, n: nat, tid: nat, i: nat, j: nat)
    requires ValidEnv(env) && Behaviour(env, b, steps) && n < |b| && tid in b[n].cache && b[n].cache[tid].RunningPhase?
    requires var run := b[n].cache[tid].run;
             && run.round == 0 && run.certificatesSent && run.comm.output != map[]
             && i in Indices(run.comm) && j in Indices(run.comm)
    ensures var c := b[n].cache[tid].run.comm;
            && j in c.output && c.output[j].Relayed? && c.output[j].unicasts == map[]
            && c.output[j].broadcasts.Keys == Indices(c) && c.output[j].broadcasts[i] == OwnerOf(c, i).certificate
  {
    hide ReplyTo, Behaviour, Inv, TaskInv, RowInv, Hands, Indices, OwnerOf;
    RunsKeepInv(env, b, steps, n);
    InvParts(env, b[n], tid);
    RunsHand(env, b, steps, n, tid);
    HandedCertificates(env, b[n].groups, b[n].rows[tid], b[n].cache[tid], i, j);
  }

  /** The messages that open round 1. */
  ghost predicate OpensRoundOne(row: TaskRow, run: Run, j: nat) {
    var c := run.comm;
    && j in c.output
    && if row.kind == GroupTask then c.output[j] == ProtocolGroupInit(row.protocol, j, |c.active|, row.threshold)
       else
         && c.output[j].ProtocolInit? && c.output[j].protocol == row.protocol && c.output[j].index == j
         && Increasing(c.output[j].indices) && (forall i :: i in c.output[j].indices <==> i in Indices(c))
         && Some(c.output[j].data) == if row.kind == PdfTask then run.preprocessed else row.data
  }

  lemma GroupInitSays(env: Env, groups: Groups, row: TaskRow, run: Run, j: nat)
    requires RowBase(groups, row) && RunningMatches(env, groups, row, run) && row.kind.GroupTask?
    ensures InitMessage(run, j) == ProtocolGroupInit(row.protocol, j, |run.comm.active|, row.threshold)
  {
    hide RowBase, RunningMatches, TotalShares, Indices;
    GroupParties(env, groups, row, run);
    ManyIndices(run.comm);
  }

  lemma ThresholdInitSays(run: Run, j: nat)
    requires run.context.ThresholdContext?
    ensures var m := InitMessage(run, j);
            && m.ProtocolInit? && m.protocol == run.protocol && m.index == j
            && Increasing(m.indices) && (forall i :: i in m.indices <==> i in Indices(run.comm))
            && m.data == (if run.preprocessed.Some? then run.preprocessed.value else run.context.data)
  {
    hide Indices, Increasing;
  }

  lemma HandedFirst(env: Env, groups: Groups, row: TaskRow, task: Task, j: nat)
    requires TaskInv(env, groups, row, task) && task.RunningPhase? && Hands(env, task.run)
    requires OpenRound(env, task.run) == 1 && task.run.comm.output != map[] && j in Indices(task.run.comm)
    ensures OpensRoundOne(row, task.run, j)
  {
    hide TaskInv, Indices, ActiveMap, Announcement, Listing, RunOk, AcceptedRow, Startable, InitMessage, RowKeys,
         GroupOk, RowTotal, StoredAcks, Increasing, ActiveMatches, RoundMatches;
    var run := task.run;
    OpenedMatches(env, groups, row, task);
    assert run.protocol == row.protocol by { ProtocolMatches(env, groups, row, run); }
    if row.kind.GroupTask? {
      GroupInitSays(env, groups, row, run, j);
    } else {
      ThresholdInitSays(run, j);
    }
  }

  /** In every run, as long as round 1 is open, each share of a group task is handed its
      index, the number of active shares and the threshold asked for; each share of any
      other task its index, the ascending list of all active ones, and the data on record,
      or for a PDF task the hash. */
  lemma FirstMessagesAreTold(env: Env, b: seq<Sys>, steps: seq<Step>, n: nat, tid: nat, j: nat)
    requires ValidEnv(env) && Behaviour(env, b, steps) && n < |b| && tid in b[n].cache && b[n].cache[tid].RunningPhase?
    requires var run := b[n].cache[tid].run;
             OpenRound(env, run) == 1 && run.comm.output != map[] && j in Indices(run.comm)
    ensures tid in b[n].rows && OpensRoundOne(b[n].rows[tid], b[n].cache[tid].run, j)
  {
    hide ReplyTo, Behaviour, Inv, TaskInv, RowInv, Hands, Indices, OpensRoundOne, OpenRound;
    RunsKeepInv(env, b, steps, n);
    InvParts(env, b[n], tid);
    RunsHand(env, b, steps, n, tid);
    HandedFirst(env, b[n].groups, b[n].rows[tid], b[n].cache[tid], j);
  }

  /** In every run, what a share of a signing or decryption task is handed in round 1 are
      the data that the request for the task came with. */
  lemma RequestIsTold(env: Env, b: seq<Sys>, steps: seq<Step>, n: nat, tid: nat, j: nat) returns (k: nat)
    requires ValidEnv(env) && Behaviour(env, b, steps) && n < |b| && tid in b[n].cache && b[n].cache[tid].RunningPhase?
    requires var run := b[n].cache[tid].run;
             && OpenRound(env, run) == 1 && run.comm.output != map[] && j in Indices(run.comm)
             && (run.info.kind == ChallengeTask || run.info.kind == DecryptTask)
    ensures k < n && k < |steps| && steps[k].RequestTask? && steps[k].tid == tid && steps[k].gid in b[k].groups
    ensures var out := b[n].cache[tid].run.comm.output;
            && j in out && out[j].ProtocolInit? && out[j].data == steps[k].data && out[j].index == j
            && out[j].protocol == b[k].groups[steps[k].gid].protocol
  {
    hide ReplyTo, Behaviour, Indices, OpenRound, Listing, Increasing, ContextSays;
    FirstMessagesAreTold(env, b, steps, n, tid, j);
    MemoryFollowsRows(env, b, steps, n, tid);
    k := TaskIsAsRequested(env, b, steps, n, tid);
  }

  // ----------------------------------------------------- the vote and the restart

  /** The task hands out what opens it. */
  ghost predicate Tells(run: Run) {
    Opened(run) && (run.comm.output == Announcement(run) || run.comm.output == FirstMessages(run))
  }

  lemma TellsAll(run: Run)
    requires Tells(run)
    ensures run.comm.output.Keys == Indices(run.comm) && (run.comm.active != map[] ==> run.comm.output != map[])
  {
    hide Certificates, InitMessage;
    ManyIndices(run.comm);
    assert run.comm.active != map[] ==> |run.comm.active| > 0;
    hide Indices;
    assert run.comm.output.Keys == Indices(run.comm);
  }

  ghost predicate BeginsTelling(run: Run) {
    Tells(run) && run.round == if run.info.kind.GroupTask? then 0 else 1
  }

  lemma InitializeTells(env: Env, run: Run, helper: Helper)
    requires ValidEnv(env) && run.round == 0 && run.preprocessed.None?
    ensures var (run', u) := Initialize(run, helper);
            u.CertificatesSent? || u.NextRound? ==> BeginsTelling(run')
  {
    hide StartTask, Announcement, FirstMessages, Hands, SendAll, Certificates;
    InitializeHands(env, run, helper);
    StartTells(env, run, helper);
  }

  lemma SettleTells(env: Env, row: TaskRow, task: Task, chosen: seq<Device>, helper: Helper)
    requires ValidEnv(env) && task.VotingPhase?
    ensures var task' := Settle(row, task, chosen, helper).0.task; task'.RunningPhase? ==> BeginsTelling(task'.run)
  {
    hide Verdict, TotalShares, CreateRun, Initialize, ActiveMap, Tally, BeginsTelling, Unmade;
    var active := ActiveMap(task.info.participants, Tally(chosen));
    if CreateRun(task, active).Some? {
      CreatedUnhashed(task, active);
      InitializeTells(env, CreateRun(task, active).value, helper);
    }
  }

  lemma DecideTells(env: Env, slot: Slot, id: Bytes, accept: bool, chosen: seq<Device>, helper: Helper)
    requires ValidEnv(env) && slot.task.VotingPhase?
    ensures var task' := Decide(slot, id, accept, chosen, helper).0.task; task'.RunningPhase? ==> BeginsTelling(task'.run)
  {
    hide Settle, WithVote, IdSet, StoreDecision, BeginsTelling;
    SettleTells(env, StoreDecision(slot.row, id, accept), WithVote(slot.task, id, accept), chosen, helper);
  }

  lemma RestartTells(env: Env, slot: Slot, helper: Helper)
    requires ValidEnv(env) && TaskHands(env, slot.task) && slot.task.RunningPhase?
    ensures var task' := RestartTask(slot, helper).0.task;
            task'.RunningPhase? ==>
              && Tells(task'.run) && task'.run.round == 1
              && (task'.run.info.kind.PdfTask? ==>
                    task'.run.preprocessed.Some? && task'.run.preprocessed == helper.start)
  {
    hide StartTask, Announcement, FirstMessages;
    var run := slot.task.run;
    StartTells(env, run.(info := run.info.(attempts := run.info.attempts + 1)), helper);
  }

  /** Once it is over, a step has told every share of the task what opens it. */
  ghost predicate TellsEveryone(task: Task) {
    task.RunningPhase? && task.run.comm.output != map[] && task.run.comm.output.Keys == Indices(task.run.comm)
  }

  lemma OpenersTell(env: Env, groups: Groups, row: TaskRow, task: Task)
    requires TaskInv(env, groups, row, task) && task.RunningPhase? && Tells(task.run)
    ensures TellsEveryone(task)
  {
    hide TaskInv, RowInv, Announcement, FirstMessages, Indices, DeviceClosed, WellTyped, RoundReceived;
    TellsAll(task.run);
    OpenedIsOk(env, groups, row, task);
  }

  lemma OpeningHandled(env: Env, s: Sys, step: Step, tid: nat)
    requires ValidEnv(env) && Enabled(s, step) && Touches(s, step, tid) && tid in s.cache && TaskHands(env, s.cache[tid])
    requires (step.CastVote? && s.cache[tid].VotingPhase?) || (step.RestartNext? && s.cache[tid].RunningPhase?)
    ensures var task := Handled(env, s, step, tid).task;
            task.RunningPhase? ==>
              && Tells(task.run) && (task.run.round == 0 ==> task.run.certificatesSent)
              && task.run.round == (if task.run.info.kind == GroupTask && step.CastVote? then 0 else 1)
  {
    hide Decide, RestartTask, TaskHands, Draws, Announcement, FirstMessages;
    if step.CastVote? {
      DecideTells(env, SlotOf(s, tid), step.device, step.accept, step.chosen, step.helper);
    } else {
      RestartTells(env, SlotOf(s, tid), step.helper);
    }
  }

  /** In every run, the vote that starts a task hands every share its certificates or its
      first message, and so does every restart; a restarted task is in round 1. */
  lemma StartIsTold(env: Env, b: seq<Sys>, steps: seq<Step>, n: nat, tid: nat)
    requires ValidEnv(env) && Behaviour(env, b, steps) && n < |steps| && n + 1 < |b| && Touches(b[n], steps[n], tid)
    requires tid in b[n].cache
    requires || (steps[n].CastVote? && b[n].cache[tid].VotingPhase?)
             || (steps[n].RestartNext? && b[n].cache[tid].RunningPhase?)
    requires tid in b[n + 1].cache && b[n + 1].cache[tid].RunningPhase?
    ensures TellsEveryone(b[n + 1].cache[tid])
    ensures var run := b[n + 1].cache[tid].run;
            && run.round == (if run.info.kind == GroupTask && steps[n].CastVote? then 0 else 1)
            && (run.round == 0 ==> run.certificatesSent)
  {
    hide *;
    StepAt(env, b, steps, n + 1);
    RunsKeepInv(env, b, steps, n);
    RunsKeepInv(env, b, steps, n + 1);
    InvParts(env, b[n], tid);
    InvParts(env, b[n + 1], tid);
    TouchedStep(env, b[n], steps[n], tid);
    SlotParts(b[n + 1], tid);
    RunsHand(env, b, steps, n, tid);
    OpeningHandled(env, b[n], steps[n], tid);
    OpenersTell(env, b[n + 1].groups, b[n + 1].rows[tid], b[n + 1].cache[tid]);
  }

  /** In every run, once the vote is over that starts a group task, each share is handed the
      certificates of the devices of all active indices, and nothing else. */
  lemma StartedGroupTells(env: Env, b: seq<Sys>, steps: seq<Step>, n: nat, tid: nat, i: nat, j: nat)
    requires ValidEnv(env) && Behaviour(env, b, steps) && n < |steps| && n + 1 < |b|
    requires steps[n].CastVote? && steps[n].tid == tid && tid in b[n].cache && b[n].cache[tid].VotingPhase?
    requires tid in b[n + 1].cache && b[n + 1].cache[tid].RunningPhase?
    requires var run := b[n + 1].cache[tid].run;
             run.info.kind == GroupTask && i in Indices(run.comm) && j in Indices(run.comm)
    ensures var c := b[n + 1].cache[tid].run.comm;
            && c.output.Keys == Indices(c) && c.output[j].Relayed? && c.output[j].unicasts == map[]
            && c.output[j].broadcasts.Keys == Indices(c) && c.output[j].broadcasts[i] == OwnerOf(c, i).certificate
  {
    hide Behaviour, Indices, OwnerOf;
    StartIsTold(env, b, steps, n, tid);
    CertificatesAreTold(env, b, steps, n + 1, tid, i, j);
  }

  // -------------------------------------------------------- when nothing is handed out

  ghost predicate Silent(task: Task) {
    task.RunningPhase? && task.run.comm.output == map[]
  }

  /** The task was silent before, in the same attempt and the same round. */
  ghost predicate StillSilent(env: Env, task: Task, task': Task) {
    && Silent(task) && Silent(task') && task.run.info.attempts == task'.run.info.attempts
    && OpenRound(env, task.run) == OpenRound(env, task'.run)
  }

  lemma OpenersSpeak(env: Env, groups: Groups, row: TaskRow, task: Task)
    requires TaskInv(env, groups, row, task) && Silent(task)
    ensures !Tells(task.run)
  {
    hide TaskInv, Tells, Indices;
    if Tells(task.run) {
      OpenersTell(env, groups, row, task);
    }
  }

  lemma AdvancedSpeaks(run: Run)
    requires run.comm.active != map[]
    ensures Advanced(run).comm.output != map[]
  {
    hide BroadcastsFor, UnicastsFor;
    ManyIndices(run.comm);
    assert |run.comm.active| > 0;
    hide Indices;
    var i :| i in Indices(run.comm);
    assert i in Advanced(run).comm.output;
  }

  lemma UpdateSilence(env: Env, run: Run, device: Bytes, msgs: seq<ClientMessage>, order: seq<nat>, helper: Helper)
    requires ValidEnv(env) && RunOk(env, run) && Enumerates(order, AfterReceiving(run, device, msgs).comm.input.Keys)
    requires !run.info.kind.PdfTask? ==> run.preprocessed.None?
    ensures var (run', u) := Update(env, run, device, msgs, order, helper);
            u.Failed? || run'.comm.output != map[] || StillSilent(env, RunningPhase(run), RunningPhase(run'))
  {
    hide DeviceClosed, Enumerates, AfterReceiving, Update, StartTask, Advanced, Announcement, RoundReceived,
         FinalMishap, WellTyped, WaitingFor, Receives;
    UpdateShape(env, run, device, msgs, order, helper);
    UpdateOk(env, run, device, msgs, order, helper);
    var (run', u) := Update(env, run, device, msgs, order, helper);
    var after := AfterReceiving(run, device, msgs);
    GatheringKeepsTask(run, device, msgs);
    AdvancedSpeaks(after);
    if run.round == 0 && u == NextRound(1) && (run', u) == StartTask(after, helper) {
      StartTells(env, after, helper);
      hide FirstMessages;
      TellsAll(run');
    }
  }

  lemma UpdateTaskSilence(env: Env, groups: Groups, slot: Slot, device: Bytes, msgs: seq<ClientMessage>,
                          attempt: nat, order: seq<nat>, helper: Helper)
    requires ValidEnv(env) && TaskInv(env, groups, slot.row, slot.task) && Applies(slot.task, device, msgs, order)
    requires TaskHands(env, slot.task)
    ensures var task' := UpdateTask(env, groups, slot, device, msgs, attempt, order, helper).0.task;
            Silent(task') ==> StillSilent(env, slot.task, task')
  {
    hide TaskInv, Update, Sound, DeviceClosed, Enumerates, AfterReceiving, RunOk, NewGroup, ResultBytes, Announcement,
         FirstMessages;
    if slot.task.RunningPhase? && attempt == slot.task.run.info.attempts {
      RunningIsOk(env, groups, slot.row, slot.task);
      if Sound(slot.row) || !slot.row.kind.GroupTask? {
        UpdateSilence(env, slot.task.run, device, msgs, order, helper);
      } else {
        UncertifiedGroup(env, groups, slot.row, slot.task);
        UncertifiedUpdate(env, slot.task.run, device, msgs, order, helper);
      }
    }
  }

  lemma HandledSilence(env: Env, s: Sys, step: Step, tid: nat)
    requires ValidEnv(env) && Enabled(s, step) && Touches(s, step, tid) && tid in s.rows && tid in s.cache
    requires TaskInv(env, s.groups, s.rows[tid], s.cache[tid]) && TaskHands(env, s.cache[tid])
    requires var task' := Handled(env, s, step, tid).task; Silent(task') && !Tells(task'.run)
    ensures StillSilent(env, s.cache[tid], Handled(env, s, step, tid).task)
  {
    hide Decide, UpdateTask, RestartTask, StoreAck, TaskInv, Hands, Draws, Applies, Tells;
    var slot := SlotOf(s, tid);
    match step
    case CastVote(_, device, accept, _, chosen, helper) =>
      DecideRefused(slot, device, accept, chosen, helper);
      if slot.task.VotingPhase? { OpeningHandled(env, s, step, tid); }
    case Submit(_, device, msgs, attempt, order, helper) =>
      UpdateTaskSilence(env, s.groups, slot, device, msgs, attempt, order, helper);
    case Confirm(_, _) =>
    case RestartNext(_) =>
      if slot.task.RunningPhase? { OpeningHandled(env, s, step, tid); }
  }

  lemma SilenceStep(env: Env, s: Sys, step: Step, tid: nat)
    requires ValidEnv(env) && Inv(env, s) && Enabled(s, step)
    requires var s' := Apply(env, s, step); tid in s'.cache && Silent(s'.cache[tid])
    requires tid in s.cache ==> TaskHands(env, s.cache[tid])
    ensures if tid in s.cache then StillSilent(env, s.cache[tid], Apply(env, s, step).cache[tid])
            else step.Install? && step.h in s.hydrations && s.hydrations[step.h].tid == tid
  {
    hide *;
    var s' := Apply(env, s, step);
    CacheHasRows(env, s);
    StepKeeps(env, s, step);
    CacheHasRows(env, s');
    SilentRuns(s'.cache[tid]);
    if tid !in s.rows {
      NewTaskIsVoting(env, s, step, tid);
    } else if !Touches(s, step, tid) {
      Untouched(env, s, step, tid);
      AloneParts(s, step, s', tid);
      if step.Reboot? {
        RebootEmpties(env, s);
      } else if tid in s.cache {
        SilentStays(env, s.cache[tid]);
      }
    } else {
      InvParts(env, s, tid);
      InvParts(env, s', tid);
      TouchedStep(env, s, step, tid);
      SlotParts(s', tid);
      OpenersSpeak(env, s'.groups, s'.rows[tid], s'.cache[tid]);
      HandledSilence(env, s, step, tid);
    }
  }

  lemma SilentRuns(task: Task)
    requires Silent(task)
    ensures task.RunningPhase?
  {
  }

  lemma SilentStays(env: Env, task: Task)
    requires Silent(task)
    ensures StillSilent(env, task, task)
  {
  }

  lemma SilentTrans(env: Env, a: Task, b: Task, c: Task)
    requires StillSilent(env, a, b) && StillSilent(env, b, c)
    ensures StillSilent(env, a, c) && Silent(b)
  {
  }

  /** Nothing but silence from state `k + 1` to state `n`. */
  ghost predicate SilentSince(env: Env, b: seq<Sys>, k: nat, n: nat, tid: nat)
    requires n < |b| && tid in b[n].cache
  {
    forall m | k < m <= n :: tid in b[m].cache && StillSilent(env, b[m].cache[tid], b[n].cache[tid])
  }

  lemma SilentLonger(env: Env, b: seq<Sys>, k: nat, n: nat, tid: nat)
    requires n + 1 < |b| && tid in b[n].cache && tid in b[n + 1].cache && SilentSince(env, b, k, n, tid)
    requires StillSilent(env, b[n].cache[tid], b[n + 1].cache[tid])
    ensures SilentSince(env, b, k, n + 1, tid)
  {
    hide StillSilent;
    forall m | k < m <= n + 1 ensures tid in b[m].cache && StillSilent(env, b[m].cache[tid], b[n + 1].cache[tid]) {
      if m == n + 1 {
        SilentTrans2(env, b[n].cache[tid], b[n + 1].cache[tid]);
      } else {
        SilentTrans(env, b[m].cache[tid], b[n].cache[tid], b[n + 1].cache[tid]);
      }
    }
  }

  lemma SilentTrans2(env: Env, a: Task, b: Task)
    requires StillSilent(env, a, b)
    ensures StillSilent(env, b, b) && Silent(a)
  {
  }

  /** In every run, a running task has nothing to hand out only if its entry was loaded
      into the cache, and neither a round nor an attempt has begun since. */
  lemma {:induction false} SilentIsLoaded(env: Env, b: seq<Sys>, steps: seq<Step>, n: nat, tid: nat) returns (k: nat)
    requires ValidEnv(env) && Behaviour(env, b, steps) && n < |b| && tid in b[n].cache && Silent(b[n].cache[tid])
    ensures k < n && k < |steps| && tid !in b[k].cache
    ensures steps[k].Install? && steps[k].h in b[k].hydrations && b[k].hydrations[steps[k].h].tid == tid
    ensures SilentSince(env, b, k, n, tid)
    decreases n
  {
    hide *;
    BeginsEmpty(env, b, steps);
    assert n > 0;
    StepAt(env, b, steps, n);
    RunsKeepInv(env, b, steps, n - 1);
    if tid in b[n - 1].cache {
      RunsHand(env, b, steps, n - 1, tid);
      SilenceStep(env, b[n - 1], steps[n - 1], tid);
      SilentTrans2(env, b[n - 1].cache[tid], b[n].cache[tid]);
      k := SilentIsLoaded(env, b, steps, n - 1, tid);
      SilentLonger(env, b, k, n - 1, tid);
    } else {
      SilenceStep(env, b[n - 1], steps[n - 1], tid);
      k := n - 1;
      SilentStays(env, b[n].cache[tid]);
      SilentOnce(env, b, n, tid);
    }
  }

  lemma SilentOnce(env: Env, b: seq<Sys>, n: nat, tid: nat)
    requires 0 < n < |b| && tid in b[n].cache && StillSilent(env, b[n].cache[tid], b[n].cache[tid])
    ensures SilentSince(env, b, n - 1, n, tid)
  {
    hide StillSilent;
  }

  // -------------------------------------------------------------- the hash of a PDF

  /** The hash came with the step's helper process. */
  ghost predicate Hashes(s: Sys, step: Step, tid: nat, hash: Bytes) {
    && Touches(s, step, tid) && (step.CastVote? || step.Submit? || step.RestartNext?)
    && step.helper.start == Some(hash) && hash != []
  }

  ghost predicate Hashed(task: Task, attempts: nat, hash: Bytes) {
    task.RunningPhase? && task.run.preprocessed == Some(hash) && task.run.info.attempts == attempts
  }

  lemma SettleHash(env: Env, row: TaskRow, task: Task, chosen: seq<Device>, helper: Helper)
    requires ValidEnv(env) && task.VotingPhase?
    ensures var task' := Settle(row, task, chosen, helper).0.task;
            task'.RunningPhase? && task'.run.preprocessed.Some? ==>
              helper.start == task'.run.preprocessed != Some([])
  {
    hide Verdict, TotalShares, CreateRun, StartTask, ActiveMap, Tally, Unmade, Hands, FirstMessages, SendAll,
         Certificates;
    var active := ActiveMap(task.info.participants, Tally(chosen));
    if CreateRun(task, active).Some? {
      CreatedUnhashed(task, active);
      StartTells(env, CreateRun(task, active).value, helper);
    }
  }

  lemma UpdateHash(env: Env, run: Run, device: Bytes, msgs: seq<ClientMessage>, order: seq<nat>, helper: Helper)
    requires ValidEnv(env) && RunOk(env, run) && Enumerates(order, AfterReceiving(run, device, msgs).comm.input.Keys)
    requires !run.info.kind.PdfTask? ==> run.preprocessed.None?
    ensures var (run', u) := Update(env, run, device, msgs, order, helper);
            || u.Failed? || run'.preprocessed == run.preprocessed
            || (run'.preprocessed.Some? && helper.start == run'.preprocessed != Some([]))
    ensures Update(env, run, device, msgs, order, helper).0.info == run.info
  {
    hide DeviceClosed, Enumerates, AfterReceiving, Update, StartTask, Announcement, RoundReceived, FinalMishap,
         WellTyped, WaitingFor, Receives, Relay, FirstMessages, Hands;
    UpdateShape(env, run, device, msgs, order, helper);
    UpdateOk(env, run, device, msgs, order, helper);
    var after := AfterReceiving(run, device, msgs);
    GatheringKeepsTask(run, device, msgs);
    StartTells(env, after, helper);
  }

  lemma UpdateTaskHash(env: Env, groups: Groups, slot: Slot, device: Bytes, msgs: seq<ClientMessage>,
                       attempt: nat, order: seq<nat>, helper: Helper, hash: Bytes)
    requires ValidEnv(env) && TaskInv(env, groups, slot.row, slot.task) && Applies(slot.task, device, msgs, order)
    requires TaskHands(env, slot.task)
    ensures var task' := UpdateTask(env, groups, slot, device, msgs, attempt, order, helper).0.task;
            task'.RunningPhase? && task'.run.preprocessed == Some(hash) ==>
              (helper.start == Some(hash) && hash != []) || Hashed(slot.task, task'.run.info.attempts, hash)
  {
    hide TaskInv, Update, Sound, DeviceClosed, Enumerates, AfterReceiving, RunOk, NewGroup, ResultBytes, Announcement,
         FirstMessages;
    if slot.task.RunningPhase? && attempt == slot.task.run.info.attempts {
      RunningIsOk(env, groups, slot.row, slot.task);
      if Sound(slot.row) || !slot.row.kind.GroupTask? {
        UpdateHash(env, slot.task.run, device, msgs, order, helper);
      } else {
        UncertifiedGroup(env, groups, slot.row, slot.task);
        UncertifiedUpdate(env, slot.task.run, device, msgs, order, helper);
      }
    }
  }

  lemma RestartHash(env: Env, slot: Slot, helper: Helper)
    requires ValidEnv(env) && TaskHands(env, slot.task) && slot.task.RunningPhase?
    ensures var task' := RestartTask(slot, helper).0.task;
            task'.RunningPhase? && task'.run.preprocessed.Some? ==>
              helper.start == task'.run.preprocessed != Some([])
  {
    hide StartTask, Announcement, FirstMessages;
    var run := slot.task.run;
    StartTells(env, run.(info := run.info.(attempts := run.info.attempts + 1)), helper);
  }

  lemma HandledHash(env: Env, s: Sys, step: Step, tid: nat, hash: Bytes)
    requires ValidEnv(env) && Enabled(s, step) && Touches(s, step, tid) && tid in s.rows && tid in s.cache
    requires TaskInv(env, s.groups, s.rows[tid], s.cache[tid]) && TaskHands(env, s.cache[tid])
    requires var task' := Handled(env, s, step, tid).task; task'.RunningPhase? && task'.run.preprocessed == Some(hash)
    ensures || Hashes(s, step, tid, hash)
            || Hashed(s.cache[tid], Handled(env, s, step, tid).task.run.info.attempts, hash)
  {
    hide UpdateTask, RestartTask, StoreAck, TaskInv, Hands, Draws, Applies, Settle, WithVote, IdSet, StoreDecision;
    var slot := SlotOf(s, tid);
    match step
    case CastVote(_, device, accept, _, chosen, helper) =>
      if slot.task.VotingPhase? {
        SettleHash(env, StoreDecision(slot.row, device, accept), WithVote(slot.task, device, accept), chosen, helper);
      }
    case Submit(_, device, msgs, attempt, order, helper) =>
      UpdateTaskHash(env, s.groups, slot, device, msgs, attempt, order, helper, hash);
    case Confirm(_, _) =>
    case RestartNext(helper) =>
      if slot.task.RunningPhase? { RestartHash(env, slot, helper); }
  }

  lemma HashStep(env: Env, s: Sys, step: Step, tid: nat, attempts: nat, hash: Bytes)
    requires ValidEnv(env) && Inv(env, s) && Enabled(s, step)
    requires var s' := Apply(env, s, step); tid in s'.cache && Hashed(s'.cache[tid], attempts, hash)
    requires tid in s.cache ==> TaskHands(env, s.cache[tid])
    ensures Hashes(s, step, tid, hash) || (tid in s.cache && Hashed(s.cache[tid], attempts, hash))
  {
    hide *;
    var s' := Apply(env, s, step);
    CacheHasRows(env, s);
    StepKeeps(env, s, step);
    CacheHasRows(env, s');
    HashedRuns(s'.cache[tid], attempts, hash);
    if tid !in s.rows {
      NewTaskIsVoting(env, s, step, tid);
    } else if !Touches(s, step, tid) {
      Untouched(env, s, step, tid);
      AloneParts(s, step, s', tid);
      if step.Reboot? {
        RebootEmpties(env, s);
      } else if tid !in s.cache {
        InstallIs(env, s, step);
        InstallHands(env, s, step.h, tid);
      }
    } else {
      InvParts(env, s, tid);
      TouchedStep(env, s, step, tid);
      SlotParts(s', tid);
      HandledHash(env, s, step, tid, hash);
    }
  }

  lemma HashedRuns(task: Task, attempts: nat, hash: Bytes)
    requires Hashed(task, attempts, hash)
    ensures task.RunningPhase? && task.run.preprocessed == Some(hash) && task.run.info.attempts == attempts
  {
  }

  ghost predicate HashedSince(b: seq<Sys>, k: nat, n: nat, tid: nat, attempts: nat, hash: Bytes)
    requires n < |b|
  {
    forall m | k < m <= n :: tid in b[m].cache && Hashed(b[m].cache[tid], attempts, hash)
  }

  lemma HashedLonger(b: seq<Sys>, k: nat, n: nat, tid: nat, attempts: nat, hash: Bytes)
    requires n + 1 < |b| && tid in b[n + 1].cache && HashedSince(b, k, n, tid, attempts, hash)
    requires Hashed(b[n + 1].cache[tid], attempts, hash)
    ensures HashedSince(b, k, n + 1, tid, attempts, hash)
  {
    hide Hashed;
  }

  /** In every run, the hash that the shares of a PDF task work on is the one the helper
      process answered when this attempt was started, in memory ever since. */
  lemma {:induction false} HashIsHelpers(env: Env, b: seq<Sys>, steps: seq<Step>, n: nat, tid: nat, attempts: nat,
                                         hash: Bytes) returns (k: nat)
    requires ValidEnv(env) && Behaviour(env, b, steps) && n < |b|
    requires tid in b[n].cache && Hashed(b[n].cache[tid], attempts, hash)
    ensures k < n && k < |steps| && Hashes(b[k], steps[k], tid, hash) && HashedSince(b, k, n, tid, attempts, hash)
    decreases n
  {
    hide *;
    BeginsEmpty(env, b, steps);
    assert n > 0;
    StepAt(env, b, steps, n);
    RunsKeepInv(env, b, steps, n - 1);
    if tid in b[n - 1].cache {
      RunsHand(env, b, steps, n - 1, tid);
    }
    HashStep(env, b[n - 1], steps[n - 1], tid, attempts, hash);
    if Hashes(b[n - 1], steps[n - 1], tid, hash) {
      k := n - 1;
      HashedOnce(b, n, tid, attempts, hash);
    } else {
      k := HashIsHelpers(env, b, steps, n - 1, tid, attempts, hash);
      HashedLonger(b, k, n - 1, tid, attempts, hash);
    }
  }

  lemma HashedOnce(b: seq<Sys>, n: nat, tid: nat, attempts: nat, hash: Bytes)
    requires 0 < n < |b| && tid in b[n].cache && Hashed(b[n].cache[tid], attempts, hash)
    ensures HashedSince(b, n - 1, n, tid, attempts, hash)
  {
    hide Hashed;
  }

  // ------------------------------------------------------------------- one call

  /** Initializing a group task hands every share the certificates of the devices of all
      active indices, and nothing else. */
  lemma InitializedGroupTells(run: Run, counts: map<Bytes, nat>, helper: Helper, i: nat, j: nat)
    requires DistinctIds(run.info.participants) && run.comm.active == ActiveMap(run.info.participants, counts)
    requires run.info.kind == GroupTask && i in Indices(run.comm) && j in Indices(run.comm)
    ensures var (run', u) := Initialize(run, helper);
            && u == CertificatesSent && j in run'.comm.output && run'.comm.output[j].Relayed?
            && run'.comm.output[j].unicasts == map[] && run'.comm.output[j].broadcasts.Keys == Indices(run.comm)
            && run'.comm.output[j].broadcasts[i] == OwnerOf(run.comm, i).certificate
  {
    hide ActiveMap, DistinctIds, Certificates, OwnerOf, Indices;
    forall k ensures k in Certificates(run.info.participants, run.comm) <==> k in Indices(run.comm) {
      CertificatesExact(run, counts, k);
    }
    CertificatesExact(run, counts, i);
  }

  /** The outcome of starting a signing or decryption task: share `j` is told what to work
      on, or the helper process has failed. */
  ghost predicate FirstTold(run: Run, helper: Helper, outcome: (Run, RoundUpdate), j: nat)
    requires run.context.ThresholdContext?
  {
    var (run', u) := outcome;
    if run.info.kind == PdfTask && helper.start == None then u == Failed("Task failed (server error)")
    else if run.info.kind == PdfTask && helper.start == Some([]) then u == Failed("Task failed (invalid PDF)")
    else
      && u == NextRound(1) && j in run'.comm.output && run'.comm.output[j].ProtocolInit?
      && run'.comm.output[j].index == j
      && Some(run'.comm.output[j].data) == if run.info.kind == PdfTask then helper.start else Some(run.context.data)
  }

  /** Initializing or restarting any other task hands every share the data, or the hash
      that the helper process of a PDF task has just answered. */
  lemma StartedTaskTells(run: Run, helper: Helper, j: nat)
    requires run.context.ThresholdContext? && run.info.kind != GroupTask && j in Indices(run.comm)
    requires run.info.kind != PdfTask ==> run.preprocessed == None
    ensures FirstTold(run, helper, Initialize(run, helper), j) && FirstTold(run, helper, Restart(run, helper), j)
  {
    hide Started;
    var again := run.(info := run.info.(attempts := run.info.attempts + 1));
    ThresholdFirstMessages(run, j);
    ThresholdFirstMessages(run.(preprocessed := helper.start), j);
    ThresholdFirstMessages(again, j);
    ThresholdFirstMessages(again.(preprocessed := helper.start), j);
  }
}
