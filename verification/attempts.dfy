/** How long an attempt takes, counted in the steps of whole runs. */
module Attempts {
  import opened Basics
  import opened Communication
  import opened Rounds
  import opened Progress
  import opened Store
  import opened Handlers
  import opened Invariant
  import opened System
  import opened Runs

  /** The task is in memory, in the given attempt, and still gathers messages. */
  ghost predicate Gathers(env: Env, s: Sys, tid: nat, attempts: nat) {
    InAttempt(s, tid, attempts) && s.cache[tid].run.round <= LastRound(env, s.cache[tid].run)
  }

  /** The step submits a batch for the running attempt, and the batch gets stored. */
  ghost predicate StoresBatch(s: Sys, step: Step, tid: nat) {
    && step.Submit? && step.tid == tid && InAttempt(s, tid, step.attempt)
    && Accepted(s.cache[tid].run, step.device, step.msgs)
  }

  /** How many of the steps from `p` to before `n` store a batch. */
  ghost function StoredFrom(b: seq<Sys>, steps: seq<Step>, p: nat, n: nat, tid: nat): nat
    requires p <= n <= |steps| && n <= |b|
    decreases n
  {
    if n == p then 0
    else StoredFrom(b, steps, p, n - 1, tid) + if StoresBatch(b[n - 1], steps[n - 1], tid) then 1 else 0
  }

  // ------------------------------------------------------------------------ one step

  /** One batch: it is stored and takes one answer off, or was the last one; or it
      leaves the task as it was. */
  lemma BatchWorks(env: Env, groups: Groups, slot: Slot, device: Bytes, msgs: seq<ClientMessage>,
                   attempt: nat, order: seq<nat>, helper: Helper)
    requires ValidEnv(env) && slot.task.RunningPhase? && Applies(slot.task, device, msgs, order)
    requires Begun(env, slot.task.run) && slot.task.run.round <= LastRound(env, slot.task.run)
    ensures var run, task' := slot.task.run, UpdateTask(env, groups, slot, device, msgs, attempt, order, helper).0.task;
            if attempt == run.info.attempts && Accepted(run, device, msgs) then
              if task'.RunningPhase? && task'.run.round <= LastRound(env, run)
              then SameTask(run, task'.run) && Begun(env, task'.run) && Work(env, task'.run) == Work(env, run) - 1
              else Work(env, run) == 1
            else task' == slot.task
  {
    hide Update, Accepted, Work, RunOk, DeviceClosed, Enumerates, AfterReceiving, NewGroup, ResultBytes, FinalMishap,
         WaitingFor, Receives;
    var run := slot.task.run;
    if attempt == run.info.attempts {
      UpdateKeepsBegun(env, run, device, msgs, order, helper);
      UpdateOk(env, run, device, msgs, order, helper);
      if Accepted(run, device, msgs) {
        StoredBatchIsProgress(env, run, device, msgs, order, helper);
        LastRoundLeft(env, run, device, msgs, order, helper);
      } else {
        OtherBatchIsNoProgress(env, run, device, msgs, order, helper);
      }
    }
  }

  /** A final step leaves the round counter past the last round, or the task not
      running. */
  lemma LastRoundLeft(env: Env, run: Run, device: Bytes, msgs: seq<ClientMessage>, order: seq<nat>, helper: Helper)
    requires ValidEnv(env) && Begun(env, run) && run.round <= LastRound(env, run) && Accepted(run, device, msgs)
    requires Enumerates(order, AfterReceiving(run, device, msgs).comm.input.Keys)
    ensures var (run', u) := Update(env, run, device, msgs, order, helper);
            && (u.Listen? || u.NextRound? ==> run'.round <= LastRound(env, run))
            && (!u.Listen? && !u.NextRound? && !u.Failed? ==> run'.round == LastRound(env, run) + 1)
  {
    hide Update, RunOk, Enumerates, AfterReceiving, FinalMishap, WaitingFor, Receives, DeviceClosed;
    UpdateOk(env, run, device, msgs, order, helper);
    UpdateResult(env, run, device, msgs, order, helper);
    UpdateWhenStored(env, run, device, msgs, order, helper);
  }

  /** What a step makes of the answers still needed, while the attempt goes on. */
  lemma WorkStep(env: Env, s: Sys, step: Step, tid: nat, attempts: nat)
    requires ValidEnv(env) && Inv(env, s) && Enabled(s, step) && Gathers(env, s, tid, attempts)
    requires Begun(env, s.cache[tid].run)
    ensures var s' := Apply(env, s, step);
            && (Gathers(env, s', tid, attempts) ==>
                  && SameTask(s.cache[tid].run, s'.cache[tid].run) && Begun(env, s'.cache[tid].run)
                  && Work(env, s.cache[tid].run)
                     == Work(env, s'.cache[tid].run) + if StoresBatch(s, step, tid) then 1 else 0)
            && (StoresBatch(s, step, tid) && !Gathers(env, s', tid, attempts) ==> Work(env, s.cache[tid].run) == 1)
  {
    hide Inv, Apply, Enabled, Touches, LeftAlone, Handled, Begun, Work, StoresBatch, TaskInv, RowInv;
    var s' := Apply(env, s, step);
    CacheHasRows(env, s);
    if !Touches(s, step, tid) {
      Untouched(env, s, step, tid);
      AloneParts(s, step, s', tid);
      NotStored(s, step, tid);
      if step.Reboot? { RebootEmpties(env, s); }
    } else {
      TouchedStep(env, s, step, tid);
      HandledWorks(env, s, step, tid);
      SlotParts(s', tid);
    }
  }

  lemma NotStored(s: Sys, step: Step, tid: nat)
    requires !Touches(s, step, tid)
    ensures !StoresBatch(s, step, tid)
  {
    hide Accepted, InAttempt;
  }

  lemma HandledWorks(env: Env, s: Sys, step: Step, tid: nat)
    requires ValidEnv(env) && Enabled(s, step) && Touches(s, step, tid) && tid in s.rows && tid in s.cache
    requires s.cache[tid].RunningPhase? && Begun(env, s.cache[tid].run)
    requires s.cache[tid].run.round <= LastRound(env, s.cache[tid].run)
    ensures var run, task' := s.cache[tid].run, Handled(env, s, step, tid).task;
            var goesOn := task'.RunningPhase? && task'.run.info.attempts == run.info.attempts
                          && task'.run.round <= LastRound(env, task'.run);
            && (goesOn ==>
                  && SameTask(run, task'.run) && Begun(env, task'.run)
                  && Work(env, run) == Work(env, task'.run) + if StoresBatch(s, step, tid) then 1 else 0)
            && (StoresBatch(s, step, tid) && !goesOn ==> Work(env, run) == 1)
  {
    hide Enabled, Decide, UpdateTask, RestartTask, StoreAck, Begun, Work, Accepted;
    var slot := SlotOf(s, tid);
    match step
    case CastVote(_, device, accept, _, chosen, helper) => DecideRefused(slot, device, accept, chosen, helper);
    case Submit(_, _, _, _, _, _) => SubmitWorks(env, s, step);
    case Confirm(_, _) =>
    case RestartNext(helper) => RestartIsNewAttempt(slot, helper);
  }

  lemma SubmitWorks(env: Env, s: Sys, step: Step)
    requires ValidEnv(env) && Enabled(s, step) && step.Submit? && s.cache[step.tid].RunningPhase?
    requires Begun(env, s.cache[step.tid].run)
    requires s.cache[step.tid].run.round <= LastRound(env, s.cache[step.tid].run)
    ensures var run, task' := s.cache[step.tid].run, Handled(env, s, step, step.tid).task;
            if StoresBatch(s, step, step.tid) then
              if task'.RunningPhase? && task'.run.round <= LastRound(env, run)
              then SameTask(run, task'.run) && Begun(env, task'.run) && Work(env, task'.run) == Work(env, run) - 1
                   && task'.run.info.attempts == run.info.attempts
              else Work(env, run) == 1
            else task' == s.cache[step.tid]
    ensures var run, task' := s.cache[step.tid].run, Handled(env, s, step, step.tid).task;
            task'.RunningPhase? ==> LastRound(env, task'.run) == LastRound(env, run)
  {
    hide UpdateTask, Applies, Begun, Work, Accepted, SameTask;
    var slot := SlotOf(s, step.tid);
    BatchWorks(env, s.groups, slot, step.device, step.msgs, step.attempt, step.order, step.helper);
    UpdateStaysInAttempt(env, s.groups, slot, step.device, step.msgs, step.attempt, step.order, step.helper);
  }

  lemma UpdateStaysInAttempt(env: Env, groups: Groups, slot: Slot, device: Bytes, msgs: seq<ClientMessage>,
                             attempt: nat, order: seq<nat>, helper: Helper)
    requires ValidEnv(env) && slot.task.RunningPhase? && Applies(slot.task, device, msgs, order)
    requires Begun(env, slot.task.run)
    ensures var task' := UpdateTask(env, groups, slot, device, msgs, attempt, order, helper).0.task;
            task'.RunningPhase? ==>
              task'.run.info == slot.task.run.info && LastRound(env, task'.run) == LastRound(env, slot.task.run)
  {
    hide Update, RunOk, DeviceClosed, Enumerates, AfterReceiving, NewGroup, ResultBytes, FinalMishap, WaitingFor,
         Receives;
    UpdateOk(env, slot.task.run, device, msgs, order, helper);
  }

  // ------------------------------------------------------------------- a whole attempt

  /** From state `p` to state `n` the attempt has gone on gathering, in memory. */
  ghost predicate GathersSince(env: Env, b: seq<Sys>, p: nat, n: nat, tid: nat, attempts: nat) {
    p <= n < |b| && forall m | p <= m <= n :: Gathers(env, b[m], tid, attempts)
  }

  lemma {:induction false} WorkSince(env: Env, b: seq<Sys>, steps: seq<Step>, p: nat, n: nat, tid: nat, attempts: nat)
    requires ValidEnv(env) && Behaviour(env, b, steps) && n <= |steps| && GathersSince(env, b, p, n, tid, attempts)
    requires Begun(env, b[p].cache[tid].run)
    ensures Gathers(env, b[n], tid, attempts) && Begun(env, b[n].cache[tid].run)
    ensures Work(env, b[p].cache[tid].run) == Work(env, b[n].cache[tid].run) + StoredFrom(b, steps, p, n, tid)
    decreases n
  {
    hide ReplyTo, Behaviour, Inv, Apply, Enabled, Begun, Work, StoresBatch, Gathers, SameTask;
    if n > p {
      assert GathersSince(env, b, p, n - 1, tid, attempts);
      WorkSince(env, b, steps, p, n - 1, tid, attempts);
      StepAt(env, b, steps, n);
      RunsKeepInv(env, b, steps, n - 1);
      WorkStep(env, b[n - 1], steps[n - 1], tid, attempts);
    }
  }

  /** In every run: from the opening of a round on, and as long as its attempt stays in
      memory, the attempt takes exactly as many stored batches as there are active
      devices times rounds to gather.  No step before has stored that many, and a step
      is the one that makes up the number if and only if it stores a batch and takes the
      task out of its gathering rounds. */
  lemma AttemptTakesBatches(env: Env, b: seq<Sys>, steps: seq<Step>, p: nat, n: nat, tid: nat, attempts: nat)
    requires ValidEnv(env) && Behaviour(env, b, steps) && n < |steps| && n + 1 < |b|
    requires GathersSince(env, b, p, n, tid, attempts)
    requires Gathers(env, b[p], tid, attempts) && Opened(b[p].cache[tid].run) && b[p].cache[tid].run.comm.input == map[]
    ensures var run := b[p].cache[tid].run;
            var total := |ActiveDevices(run.comm)| * RoundsLeft(env, run);
            && StoredFrom(b, steps, p, n, tid) < total && StoredFrom(b, steps, p, n + 1, tid) <= total
            && (StoredFrom(b, steps, p, n + 1, tid) == total <==>
                  StoresBatch(b[n], steps[n], tid) && !Gathers(env, b[n + 1], tid, attempts))
  {
    hide ReplyTo, Behaviour, Inv, Apply, Enabled, Begun, StoresBatch, SameTask, TaskInv, RowInv, ActiveDevices, Work;
    RunsKeepInv(env, b, steps, p);
    InvParts(env, b[p], tid);
    OpenedIsOk(env, b[p].groups, b[p].rows[tid], b[p].cache[tid]);
    OkIsBegun(env, b[p].cache[tid].run);
    FullWork(env, b[p].cache[tid].run);
    WorkSince(env, b, steps, p, n, tid, attempts);
    RunsKeepInv(env, b, steps, n);
    StepAt(env, b, steps, n + 1);
    WorkStep(env, b[n], steps[n], tid, attempts);
    WorkIsLeft(env, b[n].cache[tid].run);
    if Gathers(env, b[n + 1], tid, attempts) {
      WorkIsLeft(env, b[n + 1].cache[tid].run);
    }
  }

  lemma OkIsBegun(env: Env, run: Run)
    requires RunOk(env, run) && (run.info.kind.GroupTask? || run.round >= 1)
    ensures Begun(env, run)
  {
    hide RunOk;
  }

  lemma WorkIsLeft(env: Env, run: Run)
    requires Begun(env, run) && run.round <= LastRound(env, run)
    ensures Work(env, run) >= 1
  {
    hide RunOk, Work;
    WorkRemains(env, run);
  }

  lemma FullWork(env: Env, run: Run)
    requires run.comm.input == map[]
    ensures Work(env, run) == |ActiveDevices(run.comm)| * RoundsLeft(env, run)
  {
    hide ActiveDevices, Answered;
    NobodyAnswered(run.comm);
  }
}
