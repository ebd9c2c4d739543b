/** What holds in every run of the server. */
module Runs {
  import opened Basics
  import opened Shares
  import opened Voting
  import opened Communication
  import opened Rounds
  import opened Store
  import opened Handlers
  import opened Refinement
  import opened Preservation
  import opened Invariant
  import opened System

  // ------------------------------------------------- memory and database agree

  /** After any run, rebuilding a task from its rows gives the task the cache holds, if
      the request was sound, or was started all the same. */
  lemma CacheAgreesWithRows(env: Env, b: seq<Sys>, steps: seq<Step>, n: nat, tid: nat)
    requires ValidEnv(env) && Behaviour(env, b, steps) && n < |b|
    requires tid in b[n].cache && tid in b[n].rows && Tracked(b[n].rows[tid])
    ensures Agree(env, b[n].groups, b[n].rows[tid], b[n].cache[tid])
  {
    hide ReplyTo, Behaviour, Inv, Tracked, Matches, Unstarted, Agree, CountsWithin, RowInv;
    RunsKeepInv(env, b, steps, n);
    InvParts(env, b[n], tid);
    MatchesAgree(env, b[n].groups, b[n].rows[tid], b[n].cache[tid]);
  }

  /** The restart query finds exactly the tasks that run, cached or not; a request that
      cannot be constructed is among them only once it was started all the same. */
  lemma CandidatesAreRunning(env: Env, b: seq<Sys>, steps: seq<Step>, n: nat, tid: nat, ps: seq<Participant>)
    requires ValidEnv(env) && Behaviour(env, b, steps) && n < |b| && tid in b[n].rows
    requires Listing(b[n].rows[tid].participants, ps)
    ensures var s, row := b[n], b[n].rows[tid];
            if Tracked(row) then
              && Rebuild(s.groups, row, ps).Some?
              && (RestartCandidate(row) <==> Rebuild(s.groups, row, ps).value.RunningPhase?)
              && (tid in s.cache ==> (RestartCandidate(row) <==> s.cache[tid].RunningPhase?))
            else !RestartCandidate(row)
  {
    hide ReplyTo, Inv, Behaviour, Tracked, Matches, Unstarted, UnstartedRow, Rebuild, RestartCandidate, Listing,
         CountsWithin;
    RunsKeepInv(env, b, steps, n);
    InvParts(env, b[n], tid);
    var s, row := b[n], b[n].rows[tid];
    if Tracked(row) {
      RebuildKeeps(env, s.groups, row, ps);
      CandidateIffRunning(env, s.groups, row, Rebuild(s.groups, row, ps).value);
      if tid in s.cache { CandidateIffRunning(env, s.groups, row, s.cache[tid]); }
    } else {
      UnstartedIsNoCandidate(s.groups, row);
    }
  }

  /** The guard of the restart loop: a task on the timer's list is found not running if
      and only if it has ended since the query. */
  lemma RestartMeetsEndedOnly(env: Env, b: seq<Sys>, steps: seq<Step>, n: nat)
    requires ValidEnv(env) && Behaviour(env, b, steps) && n < |steps| && steps[n].RestartNext?
    ensures Enabled(b[n], steps[n])
    ensures var tid := b[n].timer.todo[0];
            && (ReplyTo(env, b[n], steps[n]) == Done || ReplyTo(env, b[n], steps[n]) == Rejected)
            && (ReplyTo(env, b[n], steps[n]) == Rejected <==> b[n].rows[tid].result.Some?)
  {
    hide Inv, Behaviour, TaskInv, RowInv, RestartTask, Began;
    BeginsEmpty(env, b, steps);
    StepAt(env, b, steps, n + 1);
    RunsKeepInv(env, b, steps, n);
    CacheHasRows(env, b[n]);
    var s, tid := b[n], b[n].timer.todo[0];
    InvParts(env, s, tid);
    CandidateIsTracked(env, s.groups, s.rows[tid], s.cache[tid]);
    EndedPhases(env, s.groups, s.rows[tid], s.cache[tid]);
    if s.cache[tid].RunningPhase? {
      RestartKeeps(env, s.groups, SlotOf(s, tid), steps[n].helper);
    }
  }

  /** The votes on record tell a task that failed after its start from one that
      was declined. */
  lemma VotesSeparateEndings(env: Env, b: seq<Sys>, steps: seq<Step>, n: nat, tid: nat)
    requires ValidEnv(env) && Behaviour(env, b, steps) && n < |b| && tid in b[n].cache && tid in b[n].rows
    ensures var row, task := b[n].rows[tid], b[n].cache[tid];
            var rejects, bound := Rejects(StoredVotes(row.participants)), RowTotal(row) - AcceptThreshold(row) + 1;
            && (task.FailedPhase? ==> rejects < bound && (row.kind.GroupTask? ==> rejects == 0))
            && (task.DeclinedPhase? ==> rejects >= bound)
  {
    hide ReplyTo, Inv, Behaviour, TaskInv, RowInv;
    RunsKeepInv(env, b, steps, n);
    InvParts(env, b[n], tid);
    EndingsSeparate(env, b[n].groups, b[n].rows[tid], b[n].cache[tid]);
  }

  lemma EndingsSeparate(env: Env, groups: Groups, row: TaskRow, task: Task)
    requires TaskInv(env, groups, row, task)
    ensures var rejects, bound := Rejects(StoredVotes(row.participants)), RowTotal(row) - AcceptThreshold(row) + 1;
            && (task.FailedPhase? ==> rejects < bound && (row.kind.GroupTask? ==> rejects == 0))
            && (task.DeclinedPhase? ==> rejects >= bound)
  {
    hide Sound, VotingMatches, RunningMatches, FinishedMatches, Rejects, StoredVotes, Listing, RowKeys, StoredAcks,
         Waking, Launched, CountsWithin;
    if task.FailedPhase? {
      AcceptedNotDeclined(groups, row, task.info.participants);
    }
  }

  /** Every running task in every cache is device-closed; it is well formed, in a known
      round and with some device awaited until the last one, unless it is a group request
      that cannot be constructed; and a sound one has exactly the threshold's number of
      active shares. */
  lemma RunningTasksAreOk(env: Env, b: seq<Sys>, steps: seq<Step>, n: nat, tid: nat)
    requires ValidEnv(env) && Behaviour(env, b, steps) && n < |b| && tid in b[n].cache && b[n].cache[tid].RunningPhase?
    ensures tid in b[n].rows && DeviceClosed(b[n].cache[tid].run.comm)
    ensures Sound(b[n].rows[tid]) || !b[n].rows[tid].kind.GroupTask? ==> RunOk(env, b[n].cache[tid].run)
    ensures Sound(b[n].rows[tid]) ==> var c := b[n].cache[tid].run.comm;
                                      |c.active| == c.threshold == AcceptThreshold(b[n].rows[tid])
  {
    hide ReplyTo, Inv, Behaviour, RowInv, TaskInv;
    RunsKeepInv(env, b, steps, n);
    InvParts(env, b[n], tid);
    RunningIsOk(env, b[n].groups, b[n].rows[tid], b[n].cache[tid]);
  }

  lemma RunningIsOk(env: Env, groups: Groups, row: TaskRow, task: Task)
    requires TaskInv(env, groups, row, task) && task.RunningPhase?
    ensures DeviceClosed(task.run.comm)
    ensures Sound(row) || !row.kind.GroupTask? ==> RunOk(env, task.run)
    ensures Sound(row) ==> |task.run.comm.active| == task.run.comm.threshold == AcceptThreshold(row)
  {
    hide Listing, RowBase, AcceptedRow, ContextOf, Startable, Sound, Launched, CountsWithin, DeviceClosed,
         RoundReceived, WithinShares, ActiveMap;
  }

  // ------------------------------------------------------------------ running tasks

  /** A group request that cannot be constructed may seem to run, but has not begun. */
  lemma UncertifiedGroup(env: Env, groups: Groups, row: TaskRow, task: Task)
    requires TaskInv(env, groups, row, task) && task.RunningPhase? && row.kind.GroupTask? && !Sound(row)
    ensures task.run.info.kind.GroupTask? && !task.run.certificatesSent && row.round == task.run.round == 0
  {
    hide RowBase, RunOk, AcceptedRow, ActiveMatches, ContextOf, Listing, CountsWithin, Acceptable, Waking,
         DeviceClosed, CheckThreshold, RowTotal, StoredAcks, DeclinedRow;
  }

  /** A round is open: round 1 or a later one, or the certificates are out. */
  predicate Opened(run: Run) {
    run.round >= 1 || run.certificatesSent
  }

  /** A running task with an open round is well formed, whatever was requested. */
  lemma OpenedIsOk(env: Env, groups: Groups, row: TaskRow, task: Task)
    requires TaskInv(env, groups, row, task) && task.RunningPhase? && Opened(task.run)
    ensures RunOk(env, task.run) && (task.run.info.kind.GroupTask? || task.run.round >= 1)
  {
    hide TaskInv, RunOk, Sound, DeviceClosed;
    RunningIsOk(env, groups, row, task);
    if row.kind.GroupTask? && !Sound(row) {
      UncertifiedGroup(env, groups, row, task);
    } else {
      ThresholdUncertified(env, groups, row, task);
    }
  }

  lemma ThresholdUncertified(env: Env, groups: Groups, row: TaskRow, task: Task)
    requires TaskInv(env, groups, row, task) && task.RunningPhase?
    ensures row.kind == task.run.info.kind && (row.kind.GroupTask? || !task.run.certificatesSent)
  {
    hide RowBase, RunOk, AcceptedRow, ActiveMatches, ContextOf, Listing, CountsWithin, Tracked, DeviceClosed,
         Startable, UnstartedRow, RoundMatches;
  }

  ghost predicate InAttempt(s: Sys, tid: nat, attempts: nat) {
    tid in s.cache && s.cache[tid].RunningPhase? && s.cache[tid].run.info.attempts == attempts
  }

  lemma CreatedAtZero(task: Task, active: map<nat, Device>)
    requires task.VotingPhase?
    ensures CreateRun(task, active).Some? ==> CreateRun(task, active).value.round == 0
  {
    hide TotalShares, SortById;
  }

  lemma RebootEmpties(env: Env, s: Sys)
    ensures Apply(env, s, Reboot).cache == map[]
  {
  }

  /** A task that has begun and is found running can be restarted. */
  lemma RestartDone(env: Env, groups: Groups, slot: Slot, helper: Helper)
    requires ValidEnv(env) && TaskInv(env, groups, slot.row, slot.task) && slot.task.RunningPhase? && Began(slot.row)
    ensures RestartTask(slot, helper).1 == Done
  {
    hide TaskInv, RestartTask, Began;
    RunningIsOpen(env, groups, slot.row, slot.task);
    RestartKeeps(env, groups, slot, helper);
  }

  lemma RestartIsNewAttempt(slot: Slot, helper: Helper)
    requires slot.task.RunningPhase?
    ensures var task' := RestartTask(slot, helper).0.task;
            task'.RunningPhase? ==> task'.run.info.attempts == slot.task.run.info.attempts + 1
  {
    hide TotalShares, Ascend, Indices, SendAll;
  }

  lemma RestartFinishesNothing(slot: Slot, helper: Helper)
    requires slot.task.RunningPhase?
    ensures !RestartTask(slot, helper).0.task.FinishedPhase?
  {
    hide Restart;
  }

  /** In every run, the group of a PDF task has the certificate its start asks for. */
  lemma PdfHasCertificate(env: Env, b: seq<Sys>, steps: seq<Step>, n: nat, tid: nat)
    requires ValidEnv(env) && Behaviour(env, b, steps) && n < |b| && tid in b[n].rows && b[n].rows[tid].kind.PdfTask?
    ensures var s, row := b[n], b[n].rows[tid];
            row.groupId.Some? && row.groupId.value in s.groups && s.groups[row.groupId.value].certificate.Some?
  {
    hide ReplyTo, Inv, Behaviour;
    RunsKeepInv(env, b, steps, n);
    InvParts(env, b[n], tid);
    CertifiedGroup(env, b[n].groups, b[n].rows[tid]);
  }

  lemma CertifiedGroup(env: Env, groups: Groups, row: TaskRow)
    requires RowInv(env, groups, row) && row.kind.PdfTask?
    ensures row.groupId.Some? && row.groupId.value in groups && groups[row.groupId.value].certificate.Some?
  {
    hide Tracked, VotingMatches, RunningMatches, FinishedMatches, CountsWithin, RowKeys, StoredAcks, RowTotal, MapSum,
         Sound, Launched, AcceptedRow;
    if Tracked(row) {
      var task :| Matches(env, groups, row, task);
    }
  }

  // ----------------------------------------------------------- endings are final

  /** Two rows of a task that has ended: at most acknowledgements differ. */
  ghost predicate SameEnding(row: TaskRow, row': TaskRow) {
    && row' == row.(participants := row'.participants)
    && StoredVotes(row'.participants) == StoredVotes(row.participants)
    && People(row'.participants) == People(row.participants)
  }

  /** The steps that work on a given task. */
  predicate Touches(s: Sys, step: Step, tid: nat) {
    match step
    case CastVote(t, _, _, _, _, _) => t == tid
    case Submit(t, _, _, _, _, _) => t == tid
    case Confirm(t, _) => t == tid
    case RestartNext(_) => s.timer.todo != [] && s.timer.todo[0] == tid
    case _ => false
  }

  /** All other steps leave its rows alone, and its cache entry if they leave any. */
  ghost predicate LeftAlone(s: Sys, step: Step, s': Sys, tid: nat)
    requires tid in s.rows
  {
    && tid in s'.rows && s'.rows[tid] == s.rows[tid]
    && (tid in s.cache && !step.Reboot? ==> tid in s'.cache && s'.cache[tid] == s.cache[tid])
    && (tid !in s.cache && tid in s'.cache ==>
          step.Install? && step.h in s.hydrations && s.hydrations[step.h].tid == tid)
  }

  lemma PutElsewhere(s: Sys, step: Step, t: nat, slot: Slot, groups: Groups, lastUpdates: map<nat, nat>, timer: Pass,
                     tid: nat)
    requires tid in s.rows && t != tid
    ensures LeftAlone(s, step, Put(s.(timer := timer), t, slot, groups, lastUpdates), tid)
  {
  }

  lemma Untouched(env: Env, s: Sys, step: Step, tid: nat)
    requires Enabled(s, step) && tid in s.rows && s.cache.Keys <= s.rows.Keys && !Touches(s, step, tid)
    ensures LeftAlone(s, step, Apply(env, s, step), tid)
  {
    hide Decide, UpdateTask, Acknowledge, RestartTask, Rebuild, NewGroupTask, NewThresholdTask, Draws, Applies,
         Counted, Listing, GroupListing, ReadMore, Snapshot, StaleOf, WithTimes, Put, LeftAlone, QueryAnswer, Complete;
    assert s.(timer := s.timer) == s;
    match step
    case RequestGroup(t, name, _, ps, threshold, protocol, keyType) =>
      var slot := NewGroupTask(name, ps, threshold, protocol, keyType);
      if slot.Some? { PutElsewhere(s, step, t, slot.value, s.groups, s.lastUpdates, s.timer, tid); }
      else { SameLeftAlone(s, step, s, tid); }
    case RequestTask(t, gid, decrypt, name, data, ps) =>
      var slot := if gid in s.groups then NewThresholdTask(gid, s.groups[gid], decrypt, name, data, ps) else None;
      if slot.Some? { PutElsewhere(s, step, t, slot.value, s.groups, s.lastUpdates, s.timer, tid); }
      else { SameLeftAlone(s, step, s, tid); }
    case CastVote(t, device, accept, _, chosen, helper) =>
      PutElsewhere(s, step, t, Decide(SlotOf(s, t), device, accept, chosen, helper).0, s.groups,
                   Touched(s, t, s.cache[t].VotingPhase?), s.timer, tid);
    case Submit(t, device, msgs, attempt, order, helper) =>
      var (slot, groups, _) := UpdateTask(env, s.groups, SlotOf(s, t), device, msgs, attempt, order, helper);
      PutElsewhere(s, step, t, slot, groups, Touched(s, t, s.cache[t].RunningPhase?), s.timer, tid);
    case Confirm(t, device) =>
      PutElsewhere(s, step, t, Acknowledge(SlotOf(s, t), device).0, s.groups, s.lastUpdates, s.timer, tid);
    case RestartNext(helper) =>
      var t := s.timer.todo[0];
      if s.cache[t].RunningPhase? {
        PutElsewhere(s, step, t, RestartTask(SlotOf(s, t), helper).0, s.groups, s.lastUpdates[t := s.now],
                     s.timer.(todo := s.timer.todo[1..]), tid);
      } else {
        SameLeftAlone(s, step, s.(timer := s.timer.(todo := [])), tid);
      }
    case Install(h) => InstallLeavesAlone(s, h, tid);
    case Reboot => RebootLeavesAlone(env, s, tid);
    case _ => SameLeftAlone(s, step, Apply(env, s, step), tid);
  }

  lemma AloneParts(s: Sys, step: Step, s': Sys, tid: nat)
    requires tid in s.rows && LeftAlone(s, step, s', tid)
    ensures tid in s'.rows && s'.rows[tid] == s.rows[tid]
    ensures tid in s.cache && !step.Reboot? ==> tid in s'.cache && s'.cache[tid] == s.cache[tid]
    ensures tid !in s.cache && tid in s'.cache ==>
              step.Install? && step.h in s.hydrations && s.hydrations[step.h].tid == tid
  {
  }

  lemma SameLeftAlone(s: Sys, step: Step, s': Sys, tid: nat)
    requires tid in s.rows && s'.rows == s.rows && s'.cache == s.cache
    ensures LeftAlone(s, step, s', tid)
  {
  }

  lemma InstallLeavesAlone(s: Sys, h: nat, tid: nat)
    requires tid in s.rows && h in s.hydrations && Complete(s.hydrations[h])
    ensures LeftAlone(s, Install(h), Installed(s, h), tid)
  {
    hide Rebuild;
  }

  lemma InstallIs(env: Env, s: Sys, step: Step)
    requires Enabled(s, step) && step.Install?
    ensures step.h in s.hydrations && Complete(s.hydrations[step.h]) && Apply(env, s, step) == Installed(s, step.h)
  {
    hide Installed, Complete;
  }

  lemma RebootLeavesAlone(env: Env, s: Sys, tid: nat)
    requires tid in s.rows
    ensures LeftAlone(s, Reboot, Apply(env, s, Reboot), tid)
  {
  }

  /** The task a request asks for, if it is admitted. */
  ghost function Requested(s: Sys, step: Step): Option<Slot>
    requires step.RequestGroup? || step.RequestTask?
  {
    match step
    case RequestGroup(_, name, _, ps, threshold, protocol, keyType) =>
      NewGroupTask(name, ps, threshold, protocol, keyType)
    case RequestTask(_, gid, decrypt, name, data, ps) =>
      if gid in s.groups then NewThresholdTask(gid, s.groups[gid], decrypt, name, data, ps) else None
  }

  /** Tasks are made by requests only. */
  lemma NewTaskIsRequested(env: Env, s: Sys, step: Step, tid: nat)
    requires Enabled(s, step) && tid !in s.rows && tid in Apply(env, s, step).rows
    ensures (step.RequestGroup? || step.RequestTask?) && step.tid == tid && Requested(s, step).Some?
    ensures var s', slot := Apply(env, s, step), Requested(s, step).value;
            s'.rows[tid] == slot.row && tid in s'.cache && s'.cache[tid] == slot.task
  {
    hide Decide, UpdateTask, Acknowledge, RestartTask, Rebuild, NewGroupTask, NewThresholdTask, Draws, Applies,
         Counted, Listing, GroupListing, StaleOf, WithTimes, QueryAnswer, ReadMore, Snapshot, Complete, Touched;
  }

  lemma RequestedParts(s: Sys, step: Step)
    requires (step.RequestGroup? || step.RequestTask?) && Requested(s, step).Some?
    ensures var slot := Requested(s, step).value;
            && slot.task.VotingPhase? && slot.row.active == map[]
            && (slot.row.kind.GroupTask? <==> step.RequestGroup?)
  {
    hide TotalShares, NameValid, GroupOf, IdSet;
  }

  lemma NewTaskIsVoting(env: Env, s: Sys, step: Step, tid: nat)
    requires Enabled(s, step) && tid !in s.rows && tid in Apply(env, s, step).rows
    ensures tid in Apply(env, s, step).cache && Apply(env, s, step).cache[tid].VotingPhase?
  {
    hide Enabled, Apply, Requested;
    NewTaskIsRequested(env, s, step, tid);
    RequestedParts(s, step);
  }

  /** What the step's handler makes of the task. */
  ghost function Handled(env: Env, s: Sys, step: Step, tid: nat): Slot
    requires Enabled(s, step) && Touches(s, step, tid)
  {
    match step
    case CastVote(_, device, accept, _, chosen, helper) => Decide(SlotOf(s, tid), device, accept, chosen, helper).0
    case Submit(_, device, msgs, attempt, order, helper) =>
      UpdateTask(env, s.groups, SlotOf(s, tid), device, msgs, attempt, order, helper).0
    case Confirm(_, device) => Acknowledge(SlotOf(s, tid), device).0
    case RestartNext(helper) =>
      if s.cache[tid].RunningPhase? then RestartTask(SlotOf(s, tid), helper).0 else SlotOf(s, tid)
  }

  lemma TouchedStep(env: Env, s: Sys, step: Step, tid: nat)
    requires Enabled(s, step) && Touches(s, step, tid)
    ensures var s' := Apply(env, s, step);
            tid in s'.rows && tid in s'.cache && SlotOf(s', tid) == Handled(env, s, step, tid)
    ensures tid in s.cache && tid in s.rows
  {
    hide Decide, UpdateTask, Acknowledge, RestartTask, Draws, Applies, Touched, NewGroupTask, NewThresholdTask,
         StaleOf, WithTimes, QueryAnswer, ReadMore, Installed, Counted, Listing, GroupListing, Complete;
  }

  /** No step changes a result, nor a row of an ended task otherwise than by an
      acknowledgement. */
  lemma StepKeepsEnding(env: Env, s: Sys, step: Step, tid: nat)
    requires ValidEnv(env) && Inv(env, s) && Enabled(s, step) && tid in s.rows && s.rows[tid].result.Some?
    ensures var s' := Apply(env, s, step); tid in s'.rows && SameEnding(s.rows[tid], s'.rows[tid])
  {
    hide *;
    InvParts(env, s, tid);
    CacheHasRows(env, s);
    if !Touches(s, step, tid) {
      Untouched(env, s, step, tid);
      AloneParts(s, step, Apply(env, s, step), tid);
      SameEndingRefl(s.rows[tid]);
    } else {
      TouchedStep(env, s, step, tid);
      HandledEnding(env, s, step, tid);
      SlotParts(Apply(env, s, step), tid);
    }
  }

  lemma SlotParts(s: Sys, tid: nat)
    requires tid in s.rows && tid in s.cache
    ensures SlotOf(s, tid).row == s.rows[tid] && SlotOf(s, tid).task == s.cache[tid]
  {
  }

  lemma HandledEnding(env: Env, s: Sys, step: Step, tid: nat)
    requires Enabled(s, step) && Touches(s, step, tid) && tid in s.rows && tid in s.cache
    requires TaskInv(env, s.groups, s.rows[tid], s.cache[tid]) && s.rows[tid].result.Some?
    ensures SameEnding(s.rows[tid], Handled(env, s, step, tid).row)
  {
    hide Enabled, TaskInv, StoredVotes, People, Decide, UpdateTask, StoreAck;
    EndedPhases(env, s.groups, s.rows[tid], s.cache[tid]);
    match step
    case CastVote(_, device, accept, _, chosen, helper) =>
      DecideRefused(SlotOf(s, tid), device, accept, chosen, helper);
    case Submit(_, _, _, _, _, _) => SubmitRefused(env, s, step);
    case Confirm(_, device) => StoreAckKeeps(s.rows[tid], device);
    case RestartNext(_) =>
  }

  lemma SubmitRefused(env: Env, s: Sys, step: Step)
    requires Enabled(s, step) && step.Submit?
    ensures !s.cache[step.tid].RunningPhase? ==> Handled(env, s, step, step.tid) == SlotOf(s, step.tid)
  {
    hide UpdateTask, Applies;
    UpdateRefused(env, s.groups, SlotOf(s, step.tid), step.device, step.msgs, step.attempt, step.order, step.helper);
  }

  lemma {:induction false} EndedRowsStay(env: Env, b: seq<Sys>, steps: seq<Step>, i: nat, j: nat, tid: nat)
    requires ValidEnv(env) && Behaviour(env, b, steps) && i <= j < |b| && tid in b[i].rows && b[i].rows[tid].result.Some?
    ensures tid in b[j].rows && SameEnding(b[i].rows[tid], b[j].rows[tid])
    decreases j
  {
    hide *;
    if i == j {
      SameEndingRefl(b[i].rows[tid]);
    } else {
      EndedRowsStay(env, b, steps, i, j - 1, tid);
      RunsKeepInv(env, b, steps, j - 1);
      StepAt(env, b, steps, j);
      SameEndingResult(b[i].rows[tid], b[j - 1].rows[tid]);
      StepKeepsEnding(env, b[j - 1], steps[j - 1], tid);
      SameEndingTrans(b[i].rows[tid], b[j - 1].rows[tid], b[j].rows[tid]);
    }
  }

  /** Endings are final: once a task has a result, every later state has the same
      result, and what the cache then holds is that ending. */
  lemma EndingsAreFinal(env: Env, b: seq<Sys>, steps: seq<Step>, i: nat, j: nat, tid: nat)
    requires ValidEnv(env) && Behaviour(env, b, steps) && i <= j < |b| && tid in b[i].rows && b[i].rows[tid].result.Some?
    ensures tid in b[j].rows && SameEnding(b[i].rows[tid], b[j].rows[tid])
    ensures tid in b[j].cache ==>
              match b[j].cache[tid]
              case FinishedPhase(_, result, _) => b[i].rows[tid].result == Some(Success(ResultBytes(result)))
              case FailedPhase(_, reason) => b[i].rows[tid].result == Some(Failure(reason))
              case DeclinedPhase(_, _, _) => b[i].rows[tid].result.value.Failure?
              case _ => false
  {
    hide ReplyTo, Inv, Behaviour, SameEnding, TaskInv, RowInv, ResultBytes;
    EndedRowsStay(env, b, steps, i, j, tid);
    SameEndingResult(b[i].rows[tid], b[j].rows[tid]);
    RunsKeepInv(env, b, steps, j);
    InvParts(env, b[j], tid);
    if tid in b[j].cache { EndedPhases(env, b[j].groups, b[j].rows[tid], b[j].cache[tid]); }
  }

  lemma SameEndingRefl(row: TaskRow)
    ensures SameEnding(row, row)
  {
  }

  lemma SameEndingResult(row: TaskRow, row': TaskRow)
    requires SameEnding(row, row')
    ensures row'.result == row.result
  {
  }

  lemma SameEndingTrans(a: TaskRow, b: TaskRow, c: TaskRow)
    requires SameEnding(a, b) && SameEnding(b, c)
    ensures SameEnding(a, c)
  {
  }

  lemma EndedPhases(env: Env, groups: Groups, row: TaskRow, task: Task)
    requires TaskInv(env, groups, row, task)
    ensures row.result.Some? <==> !task.VotingPhase? && !task.RunningPhase?
    ensures task.FinishedPhase? ==> row.result == Some(Success(ResultBytes(task.result)))
    ensures task.FailedPhase? ==> row.result == Some(Failure(task.reason))
    ensures task.DeclinedPhase? ==> row.result.Some? && row.result.value.Failure?
  {
    hide Sound, Launched, Listing, RowBase, Cast, SameVotes, RunOk, ActiveMatches, AcceptedRow, Startable, ContextOf,
         Rejects, Accepts, ResultBytes, Waking, CountsWithin, DeclinedRow;
  }

  lemma DecideRefused(slot: Slot, id: Bytes, accept: bool, chosen: seq<Device>, helper: Helper)
    ensures !slot.task.VotingPhase? ==> Decide(slot, id, accept, chosen, helper).0 == slot
  {
    hide Settle, IdSet;
  }

  lemma UpdateRefused(env: Env, groups: Groups, slot: Slot, device: Bytes, msgs: seq<ClientMessage>,
                      attempt: nat, order: seq<nat>, helper: Helper)
    requires Applies(slot.task, device, msgs, order)
    ensures !slot.task.RunningPhase? ==> UpdateTask(env, groups, slot, device, msgs, attempt, order, helper).0 == slot
  {
    hide Applies, Update;
  }
}
