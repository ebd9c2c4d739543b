/** Where the server falls short of what one would expect, and exactly when: a request
    that panics, a live round ahead of the stored one, a batch that is dropped without
    an error, and acknowledgements that are not stored.  Each is told for every run. */
module Divergence {
  import opened Basics
  import opened Shares
  import opened Voting
  import opened Communication
  import opened Rounds
  import opened Store
  import opened Handlers
  import opened Refinement
  import opened Preservation
  import opened Invariant
  import opened System
  import opened Runs
  import opened SharesOnRecord

  // ------------------------------------------------------------------------- panics

  /** The batches on which a handler panics: those of `Panics`, and, to a group request
      that cannot be constructed, any batch of an awaited device. */
  ghost predicate Crashing(env: Env, row: TaskRow, task: Task, device: Bytes, msgs: seq<ClientMessage>,
                           attempt: nat, order: seq<nat>, helper: Helper)
    requires Applies(task, device, msgs, order)
  {
    && task.RunningPhase? && attempt == task.run.info.attempts
    && if Sound(row) || !row.kind.GroupTask? then Panics(env, task.run, device, msgs, order, helper)
       else WaitingFor(task.run.comm, device)
  }

  lemma BatchCrashesIff(env: Env, groups: Groups, slot: Slot, device: Bytes, msgs: seq<ClientMessage>,
                        attempt: nat, order: seq<nat>, helper: Helper)
    requires ValidEnv(env) && TaskInv(env, groups, slot.row, slot.task) && Applies(slot.task, device, msgs, order)
    ensures UpdateTask(env, groups, slot, device, msgs, attempt, order, helper).2 == Crashed
            <==> Crashing(env, slot.row, slot.task, device, msgs, attempt, order, helper)
  {
    hide TaskInv, Sound, Update, Panics, WaitingFor, DeviceClosed, Enumerates, AfterReceiving, RunOk, NewGroup,
         ResultBytes;
    if slot.task.RunningPhase? {
      var run := slot.task.run;
      RunningIsOk(env, groups, slot.row, slot.task);
      if Sound(slot.row) || !slot.row.kind.GroupTask? {
        UpdatePanicsIff(env, run, device, msgs, order, helper);
      } else {
        UncertifiedGroup(env, groups, slot.row, slot.task);
        UncertifiedPanics(env, run, device, msgs, order, helper);
      }
    }
  }

  lemma UncertifiedPanics(env: Env, run: Run, device: Bytes, msgs: seq<ClientMessage>, order: seq<nat>, helper: Helper)
    requires DeviceClosed(run.comm) && Enumerates(order, AfterReceiving(run, device, msgs).comm.input.Keys)
    requires run.info.kind.GroupTask? && !run.certificatesSent
    ensures Update(env, run, device, msgs, order, helper)
            == if WaitingFor(run.comm, device) then (run, Panicked) else (run, Refused)
  {
    hide DeviceClosed, Enumerates, AfterReceiving, WaitingFor, Receives, RoundReceived, NextStep;
  }

  lemma OtherStepsAnswer(env: Env, s: Sys, step: Step)
    requires Enabled(s, step) && !step.Submit? && !step.CastVote? && !step.Install?
    ensures ReplyTo(env, s, step) != Crashed
  {
    hide NewGroupTask, NewThresholdTask, Restart, Rebuild, Counted, GroupListing, Listing, StoreAck, QueryAnswer;
  }

  /** What makes a step panic, told from the state before it. */
  ghost predicate CrashingStep(env: Env, s: Sys, step: Step)
    requires Enabled(s, step)
  {
    match step
    case Submit(tid, device, msgs, attempt, order, helper) =>
      Crashing(env, s.rows[tid], s.cache[tid], device, msgs, attempt, order, helper)
    case CastVote(tid, device, accept, _, _, _) =>
      && s.cache[tid].VotingPhase? && device in IdSet(s.cache[tid].info.participants) && accept
      && s.rows[tid].kind.GroupTask? && RowTotal(s.rows[tid]) == 1
    case Install(h) => Lone(Snapshot(s.hydrations[h]))
    case _ => false
  }

  /** In every run, a request panics if and only if it is
      - a batch of an awaited device, for the current attempt, that has a misshapen
        message, or completes a last round whose broadcasts do not agree, or agree on a
        result of an unfit length, or whose PDF helper does not answer; or a batch to a
        group request that cannot be constructed;
      - the yes of the device that a group request names alone, and once;
      - the first one to find such a request, accepted, out of the cache. */
  lemma CrashesIff(env: Env, b: seq<Sys>, steps: seq<Step>, n: nat)
    requires ValidEnv(env) && Behaviour(env, b, steps) && n < |steps|
    ensures Enabled(b[n], steps[n])
    ensures ReplyTo(env, b[n], steps[n]) == Crashed <==> CrashingStep(env, b[n], steps[n])
  {
    hide Inv, Behaviour, Enabled, CrashingStep, ReplyTo;
    BeginsEmpty(env, b, steps);
    StepAt(env, b, steps, n + 1);
    RunsKeepInv(env, b, steps, n);
    AcceptedHasShares(env, b, steps, n);
    StepCrashesIff(env, b[n], steps[n]);
  }

  lemma StepCrashesIff(env: Env, s: Sys, step: Step)
    requires ValidEnv(env) && Inv(env, s) && DrawInv(s) && Enabled(s, step)
    ensures ReplyTo(env, s, step) == Crashed <==> CrashingStep(env, s, step)
  {
    hide Inv, DrawInv, TaskInv, RowInv, Crashing, Applies, UpdateTask, Draws, Decide, Rebuild, RebuildPanics, Lone,
         HydrationOk, ReadsDraw, Snapshot, RestartTask, Acknowledge, NewGroupTask, NewThresholdTask, IdSet, RowTotal;
    match step
    case Submit(tid, device, msgs, attempt, order, helper) =>
      InvParts(env, s, tid);
      BatchCrashesIff(env, s.groups, SlotOf(s, tid), device, msgs, attempt, order, helper);
    case CastVote(tid, device, accept, activations, chosen, helper) =>
      InvParts(env, s, tid);
      VoteCrashesIff(env, s.groups, SlotOf(s, tid), device, accept, activations, s.now, chosen, helper);
    case Install(h) =>
      HydrationsOk(env, s, h);
      DrawReads(s, h);
      RebuildPanicsIff(env, s, s.hydrations[h]);
    case _ => OtherStepsAnswer(env, s, step);
  }

  // ----------------------------------------------------------- the stored and the live round

  /** The batch of an awaited device completes the last round, and the final step does
      not go through. */
  ghost predicate Mishap(env: Env, run: Run, device: Bytes, msgs: seq<ClientMessage>, order: seq<nat>, helper: Helper)
    requires DeviceClosed(run.comm) && Enumerates(order, AfterReceiving(run, device, msgs).comm.input.Keys)
  {
    ReceivingKeepsClosed(run, device, msgs);
    WaitingFor(run.comm, device) && FinalMishap(env, AfterReceiving(run, device, msgs), order, helper)
  }

  lemma MishapAtLast(env: Env, run: Run, device: Bytes, msgs: seq<ClientMessage>, order: seq<nat>, helper: Helper)
    requires DeviceClosed(run.comm) && Enumerates(order, AfterReceiving(run, device, msgs).comm.input.Keys)
    ensures Mishap(env, run, device, msgs, order, helper) ==> run.round == LastRound(env, run)
  {
    hide DeviceClosed, Enumerates, WaitingFor, FinalMishap, AfterReceiving;
    MishapRound(env, run, device, msgs, order, helper);
  }

  /** After an update that leaves the task running, the two rounds differ if and only if
      they differed before or the update was a mishap. */
  lemma UpdateParts(env: Env, groups: Groups, slot: Slot, device: Bytes, msgs: seq<ClientMessage>,
                    attempt: nat, order: seq<nat>, helper: Helper)
    requires ValidEnv(env) && slot.task.RunningPhase? && Applies(slot.task, device, msgs, order)
    requires RunOk(env, slot.task.run) && RoundMatches(env, slot.row, slot.task.run)
    ensures var slot' := UpdateTask(env, groups, slot, device, msgs, attempt, order, helper).0;
            slot'.task.RunningPhase? ==>
              && slot'.task.run.info == slot.task.run.info
              && (slot'.row.round != slot'.task.run.round <==>
                    || slot.row.round != slot.task.run.round
                    || (attempt == slot.task.run.info.attempts
                        && Mishap(env, slot.task.run, device, msgs, order, helper)))
  {
    hide Update, WaitingFor, DeviceClosed, Enumerates, AfterReceiving, RunOk, NewGroup, ResultBytes, FinalMishap,
         SameTask, Receives, ResultMadeBy, Mishap;
    var run := slot.task.run;
    UpdateOk(env, run, device, msgs, order, helper);
    UpdateResult(env, run, device, msgs, order, helper);
    MishapAtLast(env, run, device, msgs, order, helper);
    MishapMeans(env, run, device, msgs, order, helper);
  }

  lemma MishapMeans(env: Env, run: Run, device: Bytes, msgs: seq<ClientMessage>, order: seq<nat>, helper: Helper)
    requires ValidEnv(env) && RunOk(env, run) && Enumerates(order, AfterReceiving(run, device, msgs).comm.input.Keys)
    ensures var (run', u) := Update(env, run, device, msgs, order, helper);
            Mishap(env, run, device, msgs, order, helper) <==> (u == Panicked || u == Refused) && run' != run
  {
    hide Update, WaitingFor, DeviceClosed, Enumerates, AfterReceiving, FinalMishap, SameTask, Receives;
    UpdateOk(env, run, device, msgs, order, helper);
  }

  ghost predicate Parted(s: Sys, tid: nat) {
    tid in s.rows && tid in s.cache && s.cache[tid].RunningPhase? && s.rows[tid].round != s.cache[tid].run.round
  }

  /** The step is a mishap of the task. */
  ghost predicate MishapStep(env: Env, s: Sys, step: Step, tid: nat)
    requires Enabled(s, step)
  {
    && step.Submit? && step.tid == tid && InAttempt(s, tid, step.attempt)
    && Mishap(env, s.cache[tid].run, step.device, step.msgs, step.order, step.helper)
  }

  /** The same for a task that the invariant holds of, however unsound. */
  lemma BatchParts(env: Env, groups: Groups, slot: Slot, device: Bytes, msgs: seq<ClientMessage>,
                   attempt: nat, order: seq<nat>, helper: Helper)
    requires ValidEnv(env) && TaskInv(env, groups, slot.row, slot.task)
    requires slot.task.RunningPhase? && Applies(slot.task, device, msgs, order)
    ensures var slot' := UpdateTask(env, groups, slot, device, msgs, attempt, order, helper).0;
            slot'.task.RunningPhase? ==>
              && slot'.task.run.info == slot.task.run.info
              && (slot'.row.round != slot'.task.run.round <==>
                    || slot.row.round != slot.task.run.round
                    || (attempt == slot.task.run.info.attempts
                        && Mishap(env, slot.task.run, device, msgs, order, helper)))
  {
    hide TaskInv, UpdateTask, Applies, Mishap, RunOk, Sound, RoundMatches, DeviceClosed, Enumerates, AfterReceiving;
    AppliesParts(slot.task.run, device, msgs, order);
    RunningIsOk(env, groups, slot.row, slot.task);
    if Sound(slot.row) || !slot.row.kind.GroupTask? {
      RunningRounds(env, groups, slot.row, slot.task);
      UpdateParts(env, groups, slot, device, msgs, attempt, order, helper);
    } else {
      UncertifiedGroup(env, groups, slot.row, slot.task);
      UncertifiedStays(env, groups, slot, device, msgs, attempt, order, helper);
      MishapAtLast(env, slot.task.run, device, msgs, order, helper);
    }
  }

  lemma UncertifiedStays(env: Env, groups: Groups, slot: Slot, device: Bytes, msgs: seq<ClientMessage>,
                         attempt: nat, order: seq<nat>, helper: Helper)
    requires slot.task.RunningPhase? && Applies(slot.task, device, msgs, order)
    requires slot.task.run.info.kind.GroupTask? && !slot.task.run.certificatesSent
    ensures UpdateTask(env, groups, slot, device, msgs, attempt, order, helper).0 == slot
  {
    hide Update, DeviceClosed, Enumerates, AfterReceiving, WaitingFor;
    UncertifiedPanics(env, slot.task.run, device, msgs, order, helper);
  }

  lemma RunningRounds(env: Env, groups: Groups, row: TaskRow, task: Task)
    requires TaskInv(env, groups, row, task) && task.RunningPhase? && (Sound(row) || !row.kind.GroupTask?)
    ensures RoundMatches(env, row, task.run)
  {
    hide RowBase, RunOk, AcceptedRow, ActiveMatches, ContextOf, Listing, CountsWithin, Sound, DeviceClosed, Startable,
         StoredAcks, DeclinedRow;
  }

  lemma RestartJoins(slot: Slot, helper: Helper)
    requires slot.task.RunningPhase? && RestartTask(slot, helper).1 == Done
    ensures var slot' := RestartTask(slot, helper).0;
            slot'.task.RunningPhase? ==>
              slot'.row.round == slot'.task.run.round && slot'.task.run.info.attempts == slot.task.run.info.attempts + 1
  {
    hide TotalShares, Ascend, Indices, SendAll;
  }

  lemma VoteJoins(env: Env, groups: Groups, slot: Slot, id: Bytes, accept: bool, chosen: seq<Device>, helper: Helper)
    requires TaskInv(env, groups, slot.row, slot.task) && slot.task.VotingPhase?
    ensures var slot' := Decide(slot, id, accept, chosen, helper).0;
            slot'.task.RunningPhase? ==> slot'.row.round == slot'.task.run.round
  {
    hide TaskInv, Settle, WithVote, IdSet;
    VotingIsAtZero(env, groups, slot.row, slot.task);
    if id in IdSet(slot.task.info.participants) {
      SettleJoins(StoreDecision(slot.row, id, accept), WithVote(slot.task, id, accept), chosen, helper);
    }
  }

  lemma VotingIsAtZero(env: Env, groups: Groups, row: TaskRow, task: Task)
    requires TaskInv(env, groups, row, task) && task.VotingPhase?
    ensures row.round == 0
  {
    hide Began;
    VotingNotBegun(env, groups, row, task);
    BeganParts(row);
  }

  lemma BeganParts(row: TaskRow)
    ensures !Began(row) ==> row.round == 0
  {
  }

  lemma SettleJoins(row: TaskRow, task: Task, chosen: seq<Device>, helper: Helper)
    requires task.VotingPhase? && row.round == 0
    ensures var slot := Settle(row, task, chosen, helper).0;
            slot.task.RunningPhase? ==> slot.row.round == slot.task.run.round
  {
    hide Verdict, TotalShares, CreateRun, ActiveMap, Tally, SortById, SendAll, Certificates;
    CreatedAtZero(task, ActiveMap(task.info.participants, Tally(chosen)));
  }

  lemma RebuildJoins(groups: Groups, row: TaskRow, ps: seq<Participant>)
    ensures var task := Rebuild(groups, row, ps);
            task.Some? && task.value.RunningPhase? ==> task.value.run.round == row.round
  {
    hide TotalShares, Accepts, Rejects, StoredVotes, ActiveMap, SupportedPair, StoredAcks;
  }

  lemma InstallJoins(env: Env, s: Sys, h: nat, tid: nat)
    requires Inv(env, s) && h in s.hydrations && Complete(s.hydrations[h])
    requires s.hydrations[h].tid == tid && tid !in s.cache
    ensures !Parted(Installed(s, h), tid)
  {
    hide Inv, Rebuild, HydrationOk, Listing, RowInv;
    var hydration := s.hydrations[h];
    HydrationsOk(env, s, h);
    SnapshotIsCurrent(env, s, hydration);
    RebuildJoins(hydration.groups.value, Snapshot(hydration), hydration.listing.value);
  }

  /** What a step makes of the two rounds of a task that runs after it. */
  lemma PartedStep(env: Env, s: Sys, step: Step, tid: nat)
    requires ValidEnv(env) && Inv(env, s) && Enabled(s, step)
    requires var s' := Apply(env, s, step); tid in s'.cache && s'.cache[tid].RunningPhase?
    ensures var s' := Apply(env, s, step);
            Parted(s', tid) <==>
              InAttempt(s, tid, s'.cache[tid].run.info.attempts) && (Parted(s, tid) || MishapStep(env, s, step, tid))
  {
    hide ReplyTo, Inv, Apply, Enabled, TaskInv, RowInv, Touches, LeftAlone, Handled, Mishap;
    var s' := Apply(env, s, step);
    CacheHasRows(env, s);
    StepKeeps(env, s, step);
    CacheHasRows(env, s');
    if tid !in s.rows {
      NewTaskIsVoting(env, s, step, tid);
      assert false;
    } else if !Touches(s, step, tid) {
      Untouched(env, s, step, tid);
      AloneParts(s, step, s', tid);
      NoMishap(env, s, step, tid);
      if step.Reboot? {
        RebootEmpties(env, s);
        assert false;
      } else if tid !in s.cache {
        InstallTargets(env, s, step);
        InstallJoins(env, s, step.h, tid);
      }
    } else {
      InvParts(env, s, tid);
      TouchedStep(env, s, step, tid);
      RestartBegan(s, step, tid);
      HandledParts(env, s, step, tid);
      SlotParts(s', tid);
    }
  }

  lemma NoMishap(env: Env, s: Sys, step: Step, tid: nat)
    requires Enabled(s, step) && !Touches(s, step, tid)
    ensures !MishapStep(env, s, step, tid)
  {
    hide Enabled, Mishap;
  }

  lemma InstallTargets(env: Env, s: Sys, step: Step)
    requires Enabled(s, step) && step.Install?
    ensures step.h in s.hydrations && Complete(s.hydrations[step.h]) && Apply(env, s, step) == Installed(s, step.h)
  {
    hide Installed, Complete;
  }

  lemma RestartBegan(s: Sys, step: Step, tid: nat)
    requires PassOk(s) && Touches(s, step, tid) && tid in s.rows
    ensures step.RestartNext? ==> Began(s.rows[tid])
  {
    hide Began;
  }

  lemma HandledParts(env: Env, s: Sys, step: Step, tid: nat)
    requires ValidEnv(env) && Enabled(s, step) && Touches(s, step, tid) && tid in s.rows && tid in s.cache
    requires TaskInv(env, s.groups, s.rows[tid], s.cache[tid]) && Handled(env, s, step, tid).task.RunningPhase?
    requires step.RestartNext? ==> Began(s.rows[tid])
    ensures var slot' := Handled(env, s, step, tid);
            slot'.row.round != slot'.task.run.round <==>
              InAttempt(s, tid, slot'.task.run.info.attempts) && (Parted(s, tid) || MishapStep(env, s, step, tid))
  {
    hide Enabled, TaskInv, Decide, UpdateTask, RestartTask, StoreAck, Began, Mishap;
    var slot := SlotOf(s, tid);
    match step
    case CastVote(_, device, accept, _, chosen, helper) =>
      DecideRefused(slot, device, accept, chosen, helper);
      if slot.task.VotingPhase? { VoteJoins(env, s.groups, slot, device, accept, chosen, helper); }
    case Submit(_, _, _, _, _, _) => SubmitParts(env, s, step);
    case Confirm(_, device) => StoreAckKeeps(slot.row, device);
    case RestartNext(helper) =>
      if slot.task.RunningPhase? {
        RestartDone(env, s.groups, slot, helper);
        RestartJoins(slot, helper);
      }
  }

  lemma SubmitParts(env: Env, s: Sys, step: Step)
    requires ValidEnv(env) && Enabled(s, step) && step.Submit?
    requires TaskInv(env, s.groups, s.rows[step.tid], s.cache[step.tid])
    requires Handled(env, s, step, step.tid).task.RunningPhase?
    ensures var tid, slot' := step.tid, Handled(env, s, step, step.tid);
            slot'.row.round != slot'.task.run.round <==>
              InAttempt(s, tid, slot'.task.run.info.attempts) && (Parted(s, tid) || MishapStep(env, s, step, tid))
  {
    hide TaskInv, UpdateTask, Applies, Mishap;
    var slot := SlotOf(s, step.tid);
    UpdateRefused(env, s.groups, slot, step.device, step.msgs, step.attempt, step.order, step.helper);
    if slot.task.RunningPhase? {
      BatchParts(env, s.groups, slot, step.device, step.msgs, step.attempt, step.order, step.helper);
    }
  }

  /** Step `k` was a mishap of the given attempt, which has been in memory ever since. */
  ghost predicate MishapSince(env: Env, b: seq<Sys>, steps: seq<Step>, k: nat, n: nat, tid: nat, attempts: nat) {
    && k < n < |b| && k < |steps| && Enabled(b[k], steps[k])
    && MishapStep(env, b[k], steps[k], tid) && steps[k].attempt == attempts
    && forall m | k < m <= n :: InAttempt(b[m], tid, attempts)
  }

  /** In every run, the stored round of a running task differs from the live one if and
      only if the final step of the current attempt did not go through, and neither the
      task nor the server has been restarted since. */
  lemma {:induction false} RoundsPartIff(env: Env, b: seq<Sys>, steps: seq<Step>, n: nat, tid: nat)
    requires ValidEnv(env) && Behaviour(env, b, steps) && n < |b| && tid in b[n].cache && b[n].cache[tid].RunningPhase?
    ensures Parted(b[n], tid)
            <==> exists k :: MishapSince(env, b, steps, k, n, tid, b[n].cache[tid].run.info.attempts)
    decreases n
  {
    hide *;
    BeginsEmpty(env, b, steps);
    assert n > 0;
    StepAt(env, b, steps, n);
    RunsKeepInv(env, b, steps, n - 1);
    PartedStep(env, b[n - 1], steps[n - 1], tid);
    var attempts, p := b[n].cache[tid].run.info.attempts, n - 1;
    if Parted(b[n], tid) {
      AttemptParts(b[p], tid, attempts);
      if MishapStep(env, b[p], steps[p], tid) {
        MishapParts(env, b[p], steps[p], tid);
        AttemptParts(b[p], tid, steps[p].attempt);
        SinceStep(env, b, steps, p, n, tid, attempts);
        assert MishapSince(env, b, steps, p, n, tid, attempts);
      } else {
        RoundsPartIff(env, b, steps, p, tid);
        var k: nat :| MishapSince(env, b, steps, k, p, tid, attempts);
        SinceAttempt(env, b, steps, k, p, tid, attempts);
        SinceStep(env, b, steps, k, n, tid, attempts);
        assert MishapSince(env, b, steps, k, n, tid, attempts);
      }
    }
    if k: nat :| MishapSince(env, b, steps, k, n, tid, attempts) {
      SinceStep(env, b, steps, k, n, tid, attempts);
      if k == p {
        MishapParts(env, b[p], steps[p], tid);
      } else {
        SinceAttempt(env, b, steps, k, p, tid, attempts);
        AttemptParts(b[p], tid, attempts);
        RoundsPartIff(env, b, steps, p, tid);
      }
      assert Parted(b[n], tid);
    }
  }

  lemma AttemptParts(s: Sys, tid: nat, attempts: nat)
    requires InAttempt(s, tid, attempts)
    ensures tid in s.cache && s.cache[tid].RunningPhase? && s.cache[tid].run.info.attempts == attempts
  {
  }

  lemma SinceAttempt(env: Env, b: seq<Sys>, steps: seq<Step>, k: nat, n: nat, tid: nat, attempts: nat)
    requires MishapSince(env, b, steps, k, n, tid, attempts)
    ensures k < n < |b| && InAttempt(b[n], tid, attempts)
  {
    hide Enabled, MishapStep, InAttempt;
  }

  lemma SinceStep(env: Env, b: seq<Sys>, steps: seq<Step>, k: nat, n: nat, tid: nat, attempts: nat)
    requires 0 < n < |b| && n - 1 < |steps| && tid in b[n].cache && b[n].cache[tid].RunningPhase?
    requires b[n].cache[tid].run.info.attempts == attempts && Enabled(b[n - 1], steps[n - 1])
    ensures MishapSince(env, b, steps, k, n, tid, attempts) <==>
              || (k < n - 1 && MishapSince(env, b, steps, k, n - 1, tid, attempts))
              || (k == n - 1 && MishapStep(env, b[k], steps[k], tid) && steps[k].Submit? && steps[k].attempt == attempts)
  {
    hide Enabled, Mishap;
  }

  lemma MishapParts(env: Env, s: Sys, step: Step, tid: nat)
    requires Enabled(s, step) && MishapStep(env, s, step, tid)
    ensures step.Submit? && InAttempt(s, tid, step.attempt)
  {
    hide Enabled, Mishap;
  }

  /** A restart by the timer brings the two rounds together again, and so does filling
      the cache after a restart of the server. */
  lemma RestartRejoins(env: Env, s: Sys, step: Step, tid: nat)
    requires ValidEnv(env) && Inv(env, s) && Enabled(s, step)
    requires (step.RestartNext? && s.timer.todo[0] == tid) || (step.Install? && tid !in s.cache)
    ensures !Parted(Apply(env, s, step), tid)
  {
    hide Inv, Apply, Enabled, Handled, TaskInv, RowInv;
    var s' := Apply(env, s, step);
    if Parted(s', tid) {
      PartedStep(env, s, step, tid);
      CacheHasRows(env, s);
      InvParts(env, s, tid);
      if step.RestartNext? {
        RestartTouches(s, step, tid);
        RestartBegan(s, step, tid);
        RestartedAnew(env, s, step, tid);
      }
      assert false;
    }
  }

  lemma RestartTouches(s: Sys, step: Step, tid: nat)
    requires Enabled(s, step) && step.RestartNext? && s.timer.todo[0] == tid
    ensures Touches(s, step, tid) && tid in s.rows && tid in s.cache
  {
  }

  lemma RestartedAnew(env: Env, s: Sys, step: Step, tid: nat)
    requires ValidEnv(env) && Enabled(s, step) && step.RestartNext? && s.timer.todo[0] == tid && Began(s.rows[tid])
    requires TaskInv(env, s.groups, s.rows[tid], s.cache[tid])
    requires Apply(env, s, step).cache[tid].RunningPhase?
    ensures !InAttempt(s, tid, Apply(env, s, step).cache[tid].run.info.attempts)
  {
    hide TaskInv, RestartTask, Began;
    if s.cache[tid].RunningPhase? {
      RestartDone(env, s.groups, SlotOf(s, tid), step.helper);
      RestartJoins(SlotOf(s, tid), step.helper);
    }
  }

  // ------------------------------------------------------------------ dropped batches

  /** To an awaited device, an update answers without an error and without any effect
      if and only if the batch is empty or of the wrong size. */
  lemma DroppedIff(env: Env, run: Run, device: Bytes, msgs: seq<ClientMessage>, order: seq<nat>, helper: Helper)
    requires ValidEnv(env) && RunOk(env, run) && WaitingFor(run.comm, device)
    requires Enumerates(order, AfterReceiving(run, device, msgs).comm.input.Keys)
    ensures Update(env, run, device, msgs, order, helper) == (run, Listen)
            <==> msgs == [] || |msgs| != |IndicesOf(run.comm, device)|
  {
    hide DeviceClosed, Enumerates, RoundReceived, NextStep, FinalMishap, IndicesOf, WaitingFor, Gathered;
    if Receives(run.comm, device, msgs).Stored? {
      StoredIsSeen(run.comm, device, msgs);
      ReceivingKeepsClosed(run, device, msgs);
      var after := AfterReceiving(run, device, msgs);
      if RoundReceived(after.comm) && run.round <= LastRound(env, run) {
        StepOk(env, after, order, helper);
      }
    }
  }

  lemma StoredIsSeen(c: Comm, device: Bytes, msgs: seq<ClientMessage>)
    requires WaitingFor(c, device) && |IndicesOf(c, device)| == |msgs|
    ensures Gathered(c, device, msgs) != c && Gathered(c, device, msgs).active == c.active
    ensures Gathered(c, device, msgs).protocol == c.protocol
  {
    hide IndicesOf, Ascend;
    GatheredKeys(c, device, msgs);
  }

  lemma DropsIff(env: Env, groups: Groups, slot: Slot, device: Bytes, msgs: seq<ClientMessage>,
                 order: seq<nat>, helper: Helper)
    requires ValidEnv(env) && slot.task.RunningPhase? && Applies(slot.task, device, msgs, order)
    requires RunOk(env, slot.task.run) && WaitingFor(slot.task.run.comm, device)
    ensures var attempt := slot.task.run.info.attempts;
            var (slot', _, reply) := UpdateTask(env, groups, slot, device, msgs, attempt, order, helper);
            reply == Done && slot'.task == slot.task <==> msgs == [] || |msgs| != |IndicesOf(slot.task.run.comm, device)|
  {
    hide Update, WaitingFor, DeviceClosed, Enumerates, AfterReceiving, RunOk, NewGroup, ResultBytes, FinalMishap,
         SameTask, Receives, IndicesOf;
    var run := slot.task.run;
    UpdateOk(env, run, device, msgs, order, helper);
    DroppedIff(env, run, device, msgs, order, helper);
  }

  /** In every run, a batch of an awaited device for the current attempt is answered
      without an error although nothing comes of it, if and only if it is empty or does
      not have a message for each of the device's active shares. */
  lemma BatchDroppedIff(env: Env, b: seq<Sys>, steps: seq<Step>, n: nat)
    requires ValidEnv(env) && Behaviour(env, b, steps) && n < |steps| && n + 1 < |b|
    requires steps[n].Submit? && Enabled(b[n], steps[n])
    requires var tid := steps[n].tid;
             && InAttempt(b[n], tid, steps[n].attempt) && WaitingFor(b[n].cache[tid].run.comm, steps[n].device)
             && (Sound(b[n].rows[tid]) || !b[n].rows[tid].kind.GroupTask?)
    ensures var tid, step := steps[n].tid, steps[n];
            && tid in b[n + 1].cache
            && (ReplyTo(env, b[n], step) == Done && b[n + 1].cache[tid] == b[n].cache[tid]
                <==> step.msgs == [] || |step.msgs| != |IndicesOf(b[n].cache[tid].run.comm, step.device)|)
  {
    hide Behaviour, Inv, TaskInv, RowInv, Sound, UpdateTask, Applies, WaitingFor, IndicesOf, RunOk, DeviceClosed;
    StepAt(env, b, steps, n + 1);
    var step := steps[n];
    RunningTasksAreOk(env, b, steps, n, step.tid);
    DropsIff(env, b[n].groups, SlotOf(b[n], step.tid), step.device, step.msgs, step.order, step.helper);
  }

  // ------------------------------------------------------------------ acknowledgements

  /** An acknowledgement is held in memory that is not in the database. */
  ghost predicate Unstored(s: Sys, tid: nat) {
    && tid in s.rows && tid in s.cache && s.cache[tid].FinishedPhase?
    && s.cache[tid].acknowledgements != StoredAcks(s.rows[tid].participants)
  }

  lemma AcksStoredIff(env: Env, groups: Groups, row: TaskRow, task: Task)
    requires TaskInv(env, groups, row, task) && task.FinishedPhase?
    ensures StoredAcks(row.participants) <= task.acknowledgements
    ensures task.acknowledgements == StoredAcks(row.participants) <==> task.acknowledgements <= row.participants.Keys
  {
    hide RowBase, AcceptedRow, Listing, CountsWithin, Sound, Launched, StoredAcks, GroupOf, ResultBytes, UnstartedRow,
         People;
  }

  /** The step is an acknowledgement by a device that does not take part in the task. */
  predicate StrangerStep(s: Sys, step: Step, tid: nat) {
    step.Confirm? && step.tid == tid && tid in s.rows && step.device !in s.rows[tid].participants
  }

  ghost predicate FinishedIn(s: Sys, tid: nat) {
    tid in s.cache && s.cache[tid].FinishedPhase?
  }

  /** All acknowledgements of a finished task are by its participants. */
  ghost predicate OwnAcks(row: TaskRow, task: Task) {
    task.FinishedPhase? ==> task.acknowledgements <= row.participants.Keys
  }

  lemma RebuildAcks(groups: Groups, row: TaskRow, ps: seq<Participant>)
    ensures var task := Rebuild(groups, row, ps); task.Some? ==> OwnAcks(row, task.value)
  {
    hide TotalShares, RebuildOpen, RebuildFailed, GroupOf;
    RebuildOpenIsOpen(groups, row, ps);
  }

  lemma RebuildOpenIsOpen(groups: Groups, row: TaskRow, ps: seq<Participant>)
    ensures forall t, c :: var task := RebuildOpen(row, ps, t, c); task.Some? ==> !task.value.FinishedPhase?
    ensures forall e, r :: !RebuildFailed(row, ps, e, r).FinishedPhase?
  {
    hide RebuildRun, StoredVotes, Accepts, Rejects;
  }

  lemma InstallAcks(env: Env, s: Sys, h: nat, tid: nat)
    requires Inv(env, s) && h in s.hydrations && Complete(s.hydrations[h])
    requires s.hydrations[h].tid == tid && tid !in s.cache
    ensures var s' := Installed(s, h); tid in s'.cache ==> tid in s'.rows && OwnAcks(s'.rows[tid], s'.cache[tid])
  {
    hide Inv, Rebuild, HydrationOk, Listing, RowInv, OwnAcks;
    var hydration := s.hydrations[h];
    HydrationsOk(env, s, h);
    CompleteParts(env, s, hydration);
    SnapshotIsCurrent(env, s, hydration);
    RebuildAcks(hydration.groups.value, Snapshot(hydration), hydration.listing.value);
  }

  lemma HandledAcks(env: Env, s: Sys, step: Step, tid: nat)
    requires Enabled(s, step) && Touches(s, step, tid) && tid in s.rows && tid in s.cache
    requires Handled(env, s, step, tid).task.FinishedPhase?
    ensures var slot' := Handled(env, s, step, tid);
            OwnAcks(slot'.row, slot'.task) <==>
              FinishedIn(s, tid) ==> OwnAcks(s.rows[tid], s.cache[tid]) && !StrangerStep(s, step, tid)
  {
    hide Enabled, Decide, UpdateTask, RestartTask, StoreAck;
    var slot := SlotOf(s, tid);
    match step
    case CastVote(_, device, accept, _, chosen, helper) =>
      DecideRefused(slot, device, accept, chosen, helper);
      if slot.task.VotingPhase? { VoteFinishesNothing(slot, device, accept, chosen, helper); }
    case Submit(_, _, _, _, _, _) => SubmitAcks(env, s, step);
    case Confirm(_, device) => StoreAckKeeps(slot.row, device);
    case RestartNext(helper) =>
      if slot.task.RunningPhase? { RestartFinishesNothing(slot, helper); }
  }

  lemma VoteFinishesNothing(slot: Slot, id: Bytes, accept: bool, chosen: seq<Device>, helper: Helper)
    requires slot.task.VotingPhase?
    ensures !Decide(slot, id, accept, chosen, helper).0.task.FinishedPhase?
  {
    hide Verdict, TotalShares, CreateRun, Initialize, ActiveMap, Tally, Decided, IdSet, StoreDecision;
  }

  lemma SubmitAcks(env: Env, s: Sys, step: Step)
    requires Enabled(s, step) && step.Submit? && Handled(env, s, step, step.tid).task.FinishedPhase?
    ensures var slot' := Handled(env, s, step, step.tid);
            if FinishedIn(s, step.tid) then slot' == SlotOf(s, step.tid) else slot'.task.acknowledgements == {}
  {
    hide UpdateTask, Applies;
    var slot := SlotOf(s, step.tid);
    UpdateRefused(env, s.groups, slot, step.device, step.msgs, step.attempt, step.order, step.helper);
    if slot.task.RunningPhase? {
      UpdateAcks(env, s.groups, slot, step.device, step.msgs, step.attempt, step.order, step.helper);
    }
  }

  lemma UpdateAcks(env: Env, groups: Groups, slot: Slot, device: Bytes, msgs: seq<ClientMessage>,
                   attempt: nat, order: seq<nat>, helper: Helper)
    requires slot.task.RunningPhase? && Applies(slot.task, device, msgs, order)
    ensures var task := UpdateTask(env, groups, slot, device, msgs, attempt, order, helper).0.task;
            task.FinishedPhase? ==> task.acknowledgements == {}
  {
    hide Update, DeviceClosed, Enumerates, AfterReceiving, NewGroup, ResultBytes;
  }

  lemma UnstoredIff(env: Env, s: Sys, tid: nat)
    requires Inv(env, s) && FinishedIn(s, tid)
    ensures tid in s.rows && (Unstored(s, tid) <==> !OwnAcks(s.rows[tid], s.cache[tid]))
  {
    hide Inv, TaskInv, RowInv, StoredAcks;
    InvParts(env, s, tid);
    AcksStoredIff(env, s.groups, s.rows[tid], s.cache[tid]);
  }

  /** What a step makes of the acknowledgements of a task that is finished after it. */
  lemma AckStep(env: Env, s: Sys, step: Step, tid: nat)
    requires ValidEnv(env) && Inv(env, s) && Enabled(s, step) && FinishedIn(Apply(env, s, step), tid)
    ensures Unstored(Apply(env, s, step), tid)
            <==> FinishedIn(s, tid) && (Unstored(s, tid) || StrangerStep(s, step, tid))
  {
    hide ReplyTo, Inv, Apply, Enabled, TaskInv, RowInv, Touches, LeftAlone, Handled, OwnAcks, Unstored, StrangerStep;
    var s' := Apply(env, s, step);
    CacheHasRows(env, s);
    StepKeeps(env, s, step);
    UnstoredIff(env, s', tid);
    if FinishedIn(s, tid) { UnstoredIff(env, s, tid); }
    if tid !in s.rows {
      NewTaskIsVoting(env, s, step, tid);
      assert false;
    } else if !Touches(s, step, tid) {
      Untouched(env, s, step, tid);
      AloneParts(s, step, s', tid);
      NoStranger(s, step, tid);
      if step.Reboot? {
        RebootEmpties(env, s);
        assert false;
      } else if tid !in s.cache {
        InstallTargets(env, s, step);
        InstallAcks(env, s, step.h, tid);
      }
    } else {
      TouchedStep(env, s, step, tid);
      HandledAcks(env, s, step, tid);
      SlotParts(s', tid);
    }
  }

  lemma NoStranger(s: Sys, step: Step, tid: nat)
    requires !Touches(s, step, tid)
    ensures !StrangerStep(s, step, tid)
  {
  }

  /** A stranger acknowledged the finished task at step `k`; its entry is still there. */
  ghost predicate StrangerSince(b: seq<Sys>, steps: seq<Step>, k: nat, n: nat, tid: nat) {
    && k < n < |b| && k < |steps| && StrangerStep(b[k], steps[k], tid)
    && forall m | k <= m <= n :: FinishedIn(b[m], tid)
  }

  /** In every run, the acknowledgements in memory and in the database differ if and
      only if a device that does not take part in the task has acknowledged it since its
      entry was last filled. */
  lemma {:induction false} AcknowledgementsPartIff(env: Env, b: seq<Sys>, steps: seq<Step>, n: nat, tid: nat)
    requires ValidEnv(env) && Behaviour(env, b, steps) && n < |b| && FinishedIn(b[n], tid)
    ensures Unstored(b[n], tid) <==> exists k :: StrangerSince(b, steps, k, n, tid)
    decreases n
  {
    hide *;
    BeginsEmpty(env, b, steps);
    assert n > 0 by { NothingFinished(b[0], tid); }
    StepAt(env, b, steps, n);
    RunsKeepInv(env, b, steps, n - 1);
    AckStep(env, b[n - 1], steps[n - 1], tid);
    var p := n - 1;
    if Unstored(b[n], tid) {
      if StrangerStep(b[p], steps[p], tid) {
        StrangerSinceStep(b, steps, p, n, tid);
        assert StrangerSince(b, steps, p, n, tid);
      } else {
        AcknowledgementsPartIff(env, b, steps, p, tid);
        var k: nat :| StrangerSince(b, steps, k, p, tid);
        StrangerIsPast(b, steps, k, p, tid);
        StrangerSinceStep(b, steps, k, n, tid);
        assert StrangerSince(b, steps, k, n, tid);
      }
    }
    if k: nat :| StrangerSince(b, steps, k, n, tid) {
      StrangerSinceStep(b, steps, k, n, tid);
      if k != p {
        AcknowledgementsPartIff(env, b, steps, p, tid);
      }
      assert Unstored(b[n], tid);
    }
  }

  lemma NothingFinished(s: Sys, tid: nat)
    requires s.cache == map[]
    ensures !FinishedIn(s, tid)
  {
  }

  lemma StrangerIsPast(b: seq<Sys>, steps: seq<Step>, k: nat, n: nat, tid: nat)
    requires StrangerSince(b, steps, k, n, tid)
    ensures k < n < |b|
  {
    hide StrangerStep, FinishedIn;
  }

  lemma StrangerSinceStep(b: seq<Sys>, steps: seq<Step>, k: nat, n: nat, tid: nat)
    requires 0 < n < |b| && n - 1 < |steps| && FinishedIn(b[n], tid)
    ensures StrangerSince(b, steps, k, n, tid) <==>
              && FinishedIn(b[n - 1], tid)
              && (|| (k < n - 1 && StrangerSince(b, steps, k, n - 1, tid))
                  || (k == n - 1 && StrangerStep(b[k], steps[k], tid)))
  {
    hide StrangerStep;
  }
}
