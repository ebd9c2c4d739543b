/** Attempt isolation over whole runs: no message crosses from one attempt, or one
    gathering period, into another. */
module Isolation {
  import opened Basics
  import opened Shares
  import opened Voting
  import opened Communication
  import opened Rounds
  import opened Store
  import opened Handlers
  import opened Refinement
  import opened Preservation
  import opened Invariant
  import opened System
  import opened Runs

  // ------------------------------------------------- what one update does to buffers

  /** The outputs carry no client message: none, certificates, or first messages. */
  ghost predicate Opening(run: Run) {
    run.round >= 1 ==> forall j | j in run.comm.output :: !run.comm.output[j].Relayed?
  }

  lemma StartOpens(run: Run, helper: Helper)
    ensures var (run', u) := StartTask(run, helper);
            u.NextRound? ==> run'.comm.input == map[] && run'.round == 1 && Opening(run') && run'.info == run.info
  {
    hide TotalShares, Ascend, Indices;
  }

  /** An update leaves the buffers alone, stores the batch, relays the inbox to open
      the next round, or has taken the final step. */
  lemma UpdateBuffers(env: Env, run: Run, device: Bytes, msgs: seq<ClientMessage>, order: seq<nat>, helper: Helper)
    requires RunOk(env, run) && Enumerates(order, AfterReceiving(run, device, msgs).comm.input.Keys)
    ensures var (run', u) := Update(env, run, device, msgs, order, helper);
            var after, last := AfterReceiving(run, device, msgs), LastRound(env, run);
            || run' == run
            || (WaitingFor(run.comm, device) && run'.comm == after.comm
                && (run'.round == run.round || (run.round == last && run'.round == last + 1)))
            || (run'.comm == run.comm.(input := map[]) && run.round == last && run'.round == last + 1)
            || (run'.comm.input == map[] && run'.round == 1 && Opening(run'))
            || (run'.comm == Relay(after.comm) && RoundReceived(after.comm) && 1 <= run.round < last
                && run'.round == run.round + 1)
  {
    hide DeviceClosed, Enumerates, WaitingFor, Receives, RoundReceived, Gathered, FinalFrom, Finalize, Started,
         SendCertificates, Relay, Opening;
    ReceivingKeepsClosed(run, device, msgs);
    GatheringKeepsTask(run, device, msgs);
    var after := AfterReceiving(run, device, msgs);
    GatheringKeepsOutput(run, device, msgs);
    if after.round == LastRound(env, after) {
      assert after.comm.input.Keys <= Indices(after.comm) by { ClosedWithin(after.comm); }
      FinalizeShape(env, after, order, helper);
    }
    StartOpens(after, helper);
    hide AfterReceiving, StartTask;
  }

  lemma GatheringKeepsOutput(run: Run, device: Bytes, msgs: seq<ClientMessage>)
    ensures var after := AfterReceiving(run, device, msgs); after.comm.(input := map[]) == run.comm.(input := map[])
  {
  }

  /** A message in the inbox after an update was there before or is in the batch. */
  lemma StoredMessage(run: Run, device: Bytes, msgs: seq<ClientMessage>, i: nat)
    requires i in AfterReceiving(run, device, msgs).comm.input
    ensures var msg := AfterReceiving(run, device, msgs).comm.input[i];
            InputAt(run.comm, i) == Some(msg) || SentBy(run.comm, device, msgs, i, msg)
  {
  }

  /** The batch answers index `i` of the sender with `msg`. */
  ghost predicate SentBy(c: Comm, device: Bytes, msgs: seq<ClientMessage>, i: nat, msg: ClientMessage) {
    && |IndicesOf(c, device)| == |msgs| && i in IndicesOf(c, device)
    && Zip(Ascend(IndicesOf(c, device)), msgs)[i] == msg
  }

  // --------------------------------------------------------------- provenance

  /** The step submits `msg` for index `i`, under the attempt that runs. */
  ghost predicate Submits(s: Sys, step: Step, tid: nat, attempts: nat, i: nat, msg: ClientMessage) {
    && step.Submit? && step.tid == tid && step.attempt == attempts && InAttempt(s, tid, attempts)
    && SentBy(s.cache[tid].run.comm, step.device, step.msgs, i, msg)
  }

  ghost predicate InboxHolds(s: Sys, tid: nat, attempts: nat, i: nat, msg: ClientMessage) {
    InAttempt(s, tid, attempts) && InputAt(s.cache[tid].run.comm, i) == Some(msg)
  }

  /** The round a message belongs to: the current one, or the last one when the
      final step has been taken without a result. */
  predicate RoundFits(env: Env, r: nat, run: Run) {
    r == run.round || (run.round == LastRound(env, run) + 1 && r == LastRound(env, run))
  }

  /** Submitted at step `k` and in the inbox ever since. */
  ghost predicate InboxSince(b: seq<Sys>, steps: seq<Step>, k: nat, n: nat, tid: nat, attempts: nat, i: nat,
      msg: ClientMessage) {
    && k < n < |b| && k < |steps| && Submits(b[k], steps[k], tid, attempts, i, msg)
    && forall m | k < m <= n :: InboxHolds(b[m], tid, attempts, i, msg)
  }

  ghost predicate Fresh(env: Env, b: seq<Sys>, steps: seq<Step>, k: nat, n: nat, tid: nat, i: nat, msg: ClientMessage)
    requires n < |b| && tid in b[n].cache && b[n].cache[tid].RunningPhase?
  {
    var run := b[n].cache[tid].run;
    InboxSince(b, steps, k, n, tid, run.info.attempts, i, msg) && RoundFits(env, b[k].cache[tid].run.round, run)
  }

  ghost predicate InboxIsolated(env: Env, b: seq<Sys>, steps: seq<Step>, n: nat, tid: nat)
    requires n < |b|
  {
    tid in b[n].cache && b[n].cache[tid].RunningPhase? ==>
      forall i | i in b[n].cache[tid].run.comm.input ::
        exists k :: Fresh(env, b, steps, k, n, tid, i, b[n].cache[tid].run.comm.input[i])
  }

  // -------------------------------------------------------- what one step does

  /** Empty inbox, and outputs without client messages. */
  ghost predicate Begins(run: Run) {
    run.comm.input == map[] && (run.comm.output == map[] || (run.round <= 1 && Opening(run)))
  }

  /** What an update of the given batch makes of the buffers. */
  ghost predicate Updates(env: Env, run: Run, run': Run, device: Bytes, msgs: seq<ClientMessage>) {
    var after, last := AfterReceiving(run, device, msgs), LastRound(env, run);
    && SameTask(run, run') && run'.info == run.info
    && (|| run' == run
        || (WaitingFor(run.comm, device) && run'.comm == after.comm
            && (run'.round == run.round || (run.round == last && run'.round == last + 1)))
        || (run'.comm == run.comm.(input := map[]) && run.round == last && run'.round == last + 1)
        || (run'.comm.input == map[] && run'.round == 1 && Opening(run'))
        || (run'.comm == Relay(after.comm) && RoundReceived(after.comm) && 1 <= run.round < last
            && run'.round == run.round + 1))
  }

  lemma InitializeBegins(run: Run, helper: Helper)
    requires run.round == 0
    ensures var (run', u) := Initialize(run, helper); u.CertificatesSent? || u.NextRound? ==> Begins(run')
  {
    StartOpens(run, helper);
    hide Started, Certificates, Indices;
  }

  lemma DecideBegins(slot: Slot, id: Bytes, accept: bool, chosen: seq<Device>, helper: Helper)
    requires slot.task.VotingPhase?
    ensures var task := Decide(slot, id, accept, chosen, helper).0.task; task.RunningPhase? ==> Begins(task.run)
  {
    hide Decided, Accepts, Rejects, TotalShares, CreateRun, Initialize, ActiveMap, Tally, IdSet, StoreDecision, Begins;
    var task := WithVote(slot.task, id, accept);
    var active := ActiveMap(task.info.participants, Tally(chosen));
    CreatedAtZero(task, active);
    if CreateRun(task, active).Some? {
      InitializeBegins(CreateRun(task, active).value, helper);
    }
  }

  lemma RestartBegins(slot: Slot, helper: Helper)
    requires slot.task.RunningPhase? && RestartTask(slot, helper).1 != Impossible
    ensures var task := RestartTask(slot, helper).0.task; task.RunningPhase? ==> Begins(task.run)
  {
    var run := slot.task.run;
    StartOpens(run.(info := run.info.(attempts := run.info.attempts + 1)), helper);
    hide Started, Opening;
  }

  lemma RebuildBegins(groups: Groups, row: TaskRow, ps: seq<Participant>)
    ensures var task := Rebuild(groups, row, ps); task.Some? && task.value.RunningPhase? ==> Begins(task.value.run)
  {
    hide TotalShares, Accepts, Rejects, StoredVotes, ActiveMap, SupportedPair, StoredAcks;
  }

  lemma UpdateUpdates(env: Env, groups: Groups, slot: Slot, device: Bytes, msgs: seq<ClientMessage>,
                      attempt: nat, order: seq<nat>, helper: Helper)
    requires ValidEnv(env) && TaskInv(env, groups, slot.row, slot.task) && Applies(slot.task, device, msgs, order)
    requires slot.task.RunningPhase?
    ensures var slot' := UpdateTask(env, groups, slot, device, msgs, attempt, order, helper).0;
            slot'.task.RunningPhase? ==>
              slot'.task == slot.task
              || (attempt == slot.task.run.info.attempts && Updates(env, slot.task.run, slot'.task.run, device, msgs))
  {
    hide Matches, Sound, Tracked, Unstarted, Applies, Update, RunOk, Updates, Enumerates, AfterReceiving, DeviceClosed,
         RowBase, RunningMatches, NewGroup, ResultBytes, CountsWithin;
    if !Tracked(slot.row) && slot.row.kind.GroupTask? {
      UpdateUnstartedGroup(env, groups, slot, device, msgs, attempt, order, helper);
    } else {
      var run := slot.task.run;
      if Tracked(slot.row) { RunningParts(env, groups, slot.row, run); }
      else { RunningIsOk(env, groups, slot.row, slot.task); }
      AppliesParts(run, device, msgs, order);
      BatchUpdates(env, run, device, msgs, order, helper);
    }
  }

  lemma BatchUpdates(env: Env, run: Run, device: Bytes, msgs: seq<ClientMessage>, order: seq<nat>, helper: Helper)
    requires ValidEnv(env) && RunOk(env, run) && Enumerates(order, AfterReceiving(run, device, msgs).comm.input.Keys)
    ensures Updates(env, run, Update(env, run, device, msgs, order, helper).0, device, msgs)
  {
    hide Update, RunOk, Enumerates, AfterReceiving, WaitingFor, Opening, FinalMishap, Relay;
    UpdateOk(env, run, device, msgs, order, helper);
    UpdateBuffers(env, run, device, msgs, order, helper);
  }

  /** How a running cache entry comes about in one step. */
  ghost predicate StepsTo(env: Env, s: Sys, step: Step, s': Sys, tid: nat)
    requires tid in s'.cache && s'.cache[tid].RunningPhase?
  {
    || Begins(s'.cache[tid].run)
    || (tid in s.cache && s.cache[tid] == s'.cache[tid])
    || (step.Submit? && step.tid == tid && InAttempt(s, tid, step.attempt)
        && Updates(env, s.cache[tid].run, s'.cache[tid].run, step.device, step.msgs))
  }

  lemma RunStep(env: Env, s: Sys, step: Step, tid: nat)
    requires ValidEnv(env) && Inv(env, s) && Enabled(s, step)
    requires var s' := Apply(env, s, step); tid in s'.cache && s'.cache[tid].RunningPhase?
    ensures StepsTo(env, s, step, Apply(env, s, step), tid)
  {
    hide ReplyTo, Inv, Apply, Enabled, Begins, Updates, TaskInv, RowInv, Decide, UpdateTask, RestartTask, StoreAck,
         Began, Distinct, LeftAlone;
    var s' := Apply(env, s, step);
    CacheHasRows(env, s);
    StepKeeps(env, s, step);
    CacheHasRows(env, s');
    if tid !in s.rows {
      NewTaskIsVoting(env, s, step, tid);
    } else if !Touches(s, step, tid) {
      Untouched(env, s, step, tid);
      AloneParts(s, step, s', tid);
      if step.Reboot? {
        RebootEmpties(env, s);
      } else if tid !in s.cache {
        InstallBegins(env, s, step.h, tid);
      }
    } else {
      InvParts(env, s, tid);
      TouchedStep(env, s, step, tid);
      HandledRun(env, s, step, tid);
    }
  }

  lemma InstallBegins(env: Env, s: Sys, h: nat, tid: nat)
    requires Enabled(s, Install(h)) && s.hydrations[h].tid == tid && tid !in s.cache
    requires var s' := Apply(env, s, Install(h)); tid in s'.cache && s'.cache[tid].RunningPhase?
    ensures Begins(Apply(env, s, Install(h)).cache[tid].run)
  {
    hide Rebuild, Begins;
    var h := s.hydrations[h];
    RebuildBegins(h.groups.value, Snapshot(h), h.listing.value);
  }

  lemma HandledRun(env: Env, s: Sys, step: Step, tid: nat)
    requires ValidEnv(env) && Enabled(s, step) && Touches(s, step, tid) && tid in s.rows && tid in s.cache
    requires TaskInv(env, s.groups, s.rows[tid], s.cache[tid]) && Handled(env, s, step, tid).task.RunningPhase?
    requires step.RestartNext? ==> Began(s.rows[tid])
    ensures var task := Handled(env, s, step, tid).task;
            || Begins(task.run) || task == s.cache[tid]
            || (step.Submit? && step.tid == tid && InAttempt(s, tid, step.attempt)
                && Updates(env, s.cache[tid].run, task.run, step.device, step.msgs))
  {
    hide Enabled, Begins, Updates, TaskInv, Decide, UpdateTask, RestartTask, StoreAck, Began;
    var slot := SlotOf(s, tid);
    match step
    case CastVote(_, device, accept, _, chosen, helper) =>
      DecideRefused(slot, device, accept, chosen, helper);
      if s.cache[tid].VotingPhase? { DecideBegins(slot, device, accept, chosen, helper); }
    case Submit(_, _, _, _, _, _) => SubmitRuns(env, s, step);
    case Confirm(_, _) =>
    case RestartNext(helper) =>
      if s.cache[tid].RunningPhase? {
        RestartDone(env, s.groups, slot, helper);
        RestartRuns(env, s.groups, slot, helper);
      }
  }

  lemma SubmitRuns(env: Env, s: Sys, step: Step)
    requires ValidEnv(env) && Enabled(s, step) && step.Submit?
        && TaskInv(env, s.groups, s.rows[step.tid], s.cache[step.tid])
    requires Handled(env, s, step, step.tid).task.RunningPhase?
    ensures var task := Handled(env, s, step, step.tid).task;
            || task == s.cache[step.tid]
            || (InAttempt(s, step.tid, step.attempt)
                && Updates(env, s.cache[step.tid].run, task.run, step.device, step.msgs))
  {
    hide TaskInv, UpdateTask, Applies, Updates;
    var slot := SlotOf(s, step.tid);
    UpdateRefused(env, s.groups, slot, step.device, step.msgs, step.attempt, step.order, step.helper);
    if slot.task.RunningPhase? {
      UpdateUpdates(env, s.groups, slot, step.device, step.msgs, step.attempt, step.order, step.helper);
    }
  }

  lemma RestartRuns(env: Env, groups: Groups, slot: Slot, helper: Helper)
    requires RestartTask(slot, helper).1 == Done && RestartTask(slot, helper).0.task.RunningPhase?
    ensures Begins(RestartTask(slot, helper).0.task.run)
  {
    hide Restart, Begins;
    RestartBegins(slot, helper);
  }

  // ----------------------------------------------------------- the inbox, in every run

  /** The message was in the inbox before the step, in the same attempt and round. */
  ghost predicate KeptFrom(env: Env, s: Sys, tid: nat, run': Run, i: nat, msg: ClientMessage) {
    && InboxHolds(s, tid, run'.info.attempts, i, msg)
    && var run := s.cache[tid].run;
       && LastRound(env, run) == LastRound(env, run')
       && (run'.round == run.round || (run.round == LastRound(env, run) && run'.round == run.round + 1))
  }

  lemma MessageOrigin(env: Env, s: Sys, step: Step, s': Sys, tid: nat, i: nat)
    requires tid in s'.cache && s'.cache[tid].RunningPhase? && StepsTo(env, s, step, s', tid)
    requires i in s'.cache[tid].run.comm.input
    ensures var run' := s'.cache[tid].run;
            var msg := run'.comm.input[i];
            || KeptFrom(env, s, tid, run', i, msg)
            || (Submits(s, step, tid, run'.info.attempts, i, msg) && RoundFits(env, s.cache[tid].run.round, run'))
  {
    hide AfterReceiving, SentBy, Opening, Relay, WaitingFor;
    var run' := s'.cache[tid].run;
    if step.Submit? && step.tid == tid && InAttempt(s, tid, step.attempt) {
      var after := AfterReceiving(s.cache[tid].run, step.device, step.msgs);
      RelayEmpties(after.comm);
      if i in after.comm.input { StoredMessage(s.cache[tid].run, step.device, step.msgs, i); }
    }
  }

  lemma RelayEmpties(c: Comm)
    ensures Relay(c).input == map[]
  {
  }

  lemma KeepFresh(env: Env, b: seq<Sys>, steps: seq<Step>, k: nat, n: nat, tid: nat, i: nat, msg: ClientMessage)
    requires 0 < n < |b| && tid in b[n].cache && b[n].cache[tid].RunningPhase?
        && InputAt(b[n].cache[tid].run.comm, i) == Some(msg)
    requires KeptFrom(env, b[n - 1], tid, b[n].cache[tid].run, i, msg) && Fresh(env, b, steps, k, n - 1, tid, i, msg)
    ensures Fresh(env, b, steps, k, n, tid, i, msg)
  {
    hide Submits;
  }

  lemma InboxStep(env: Env, b: seq<Sys>, steps: seq<Step>, n: nat, tid: nat, i: nat)
    requires ValidEnv(env) && Behaviour(env, b, steps) && 0 < n < |b|
    requires tid in b[n].cache && b[n].cache[tid].RunningPhase? && i in b[n].cache[tid].run.comm.input
    requires InboxIsolated(env, b, steps, n - 1, tid)
    ensures exists k :: Fresh(env, b, steps, k, n, tid, i, b[n].cache[tid].run.comm.input[i])
  {
    hide *;
    StepAt(env, b, steps, n);
    RunsKeepInv(env, b, steps, n - 1);
    RunStep(env, b[n - 1], steps[n - 1], tid);
    MessageOrigin(env, b[n - 1], steps[n - 1], b[n], tid, i);
    var run' := b[n].cache[tid].run;
    var msg := run'.comm.input[i];
    InputThere(run'.comm, i);
    if KeptFrom(env, b[n - 1], tid, run', i, msg) {
      KeptIsThere(env, b[n - 1], tid, run', i, msg);
      var k := InboxMember(env, b, steps, n - 1, tid, i);
      KeepFresh(env, b, steps, k, n, tid, i, msg);
    } else {
      JustSubmitted(env, b, steps, n, tid, i, msg);
    }
  }

  lemma InputThere(c: Comm, i: nat)
    requires i in c.input
    ensures InputAt(c, i) == Some(c.input[i])
  {
  }

  lemma InboxMember(env: Env, b: seq<Sys>, steps: seq<Step>, n: nat, tid: nat, i: nat) returns (k: nat)
    requires n < |b| && InboxIsolated(env, b, steps, n, tid) && tid in b[n].cache && b[n].cache[tid].RunningPhase?
    requires i in b[n].cache[tid].run.comm.input
    ensures Fresh(env, b, steps, k, n, tid, i, b[n].cache[tid].run.comm.input[i])
  {
    hide Fresh;
    k :| Fresh(env, b, steps, k, n, tid, i, b[n].cache[tid].run.comm.input[i]);
  }

  lemma KeptIsThere(env: Env, s: Sys, tid: nat, run': Run, i: nat, msg: ClientMessage)
    requires KeptFrom(env, s, tid, run', i, msg)
    ensures tid in s.cache && s.cache[tid].RunningPhase?
    ensures i in s.cache[tid].run.comm.input && s.cache[tid].run.comm.input[i] == msg
  {
  }

  lemma JustSubmitted(env: Env, b: seq<Sys>, steps: seq<Step>, n: nat, tid: nat, i: nat, msg: ClientMessage)
    requires 0 < n < |b| && n <= |steps| && tid in b[n].cache && b[n].cache[tid].RunningPhase?
    requires InputAt(b[n].cache[tid].run.comm, i) == Some(msg)
    requires Submits(b[n - 1], steps[n - 1], tid, b[n].cache[tid].run.info.attempts, i, msg)
    requires RoundFits(env, b[n - 1].cache[tid].run.round, b[n].cache[tid].run)
    ensures Fresh(env, b, steps, n - 1, n, tid, i, msg)
  {
    hide SentBy;
  }

  /** Every message in an inbox, in every run, was submitted under the task's current
      attempt number and in the current round, and has stayed in the inbox since:
      nothing in it is older than the last time it was emptied. */
  lemma {:induction false} InboxesAreIsolated(env: Env, b: seq<Sys>, steps: seq<Step>, n: nat, tid: nat)
    requires ValidEnv(env) && Behaviour(env, b, steps) && n < |b|
    ensures InboxIsolated(env, b, steps, n, tid)
    decreases n
  {
    hide Behaviour, Apply, Enabled, Fresh;
    if n == 0 {
      BeginsEmpty(env, b, steps);
    } else {
      InboxesAreIsolated(env, b, steps, n - 1, tid);
      if tid in b[n].cache && b[n].cache[tid].RunningPhase? {
        forall i | i in b[n].cache[tid].run.comm.input
          ensures exists k :: Fresh(env, b, steps, k, n, tid, i, b[n].cache[tid].run.comm.input[i])
        {
          InboxStep(env, b, steps, n, tid, i);
        }
      }
    }
  }

  // ---------------------------------------------------------- the outputs, in every run

  /** The round whose messages are being handed out. */
  function OpenRound(env: Env, run: Run): nat {
    if run.round <= LastRound(env, run) then run.round else LastRound(env, run)
  }

  /** At step `q` the inbox was relayed that is handed out in state `n`. */
  ghost predicate RelayedAt(env: Env, b: seq<Sys>, steps: seq<Step>, q: nat, n: nat, tid: nat)
    requires n < |b| && tid in b[n].cache && b[n].cache[tid].RunningPhase?
  {
    var run := b[n].cache[tid].run;
    && q < n && q < |steps| && steps[q].Submit? && steps[q].tid == tid && steps[q].attempt == run.info.attempts
    && InAttempt(b[q], tid, run.info.attempts)
        && b[q].cache[tid].run.round == OpenRound(env, run) - 1 < LastRound(env, b[q].cache[tid].run)
    && run.comm.output == Relay(AfterReceiving(b[q].cache[tid].run, steps[q].device, steps[q].msgs).comm).output
  }

  ghost predicate OutputIsolated(env: Env, b: seq<Sys>, steps: seq<Step>, n: nat, tid: nat)
    requires n < |b|
  {
    tid in b[n].cache && b[n].cache[tid].RunningPhase? ==>
      var run := b[n].cache[tid].run;
      || run.comm.output == map[]
      || (OpenRound(env, run) <= 1 && Opening(run))
      || exists q :: RelayedAt(env, b, steps, q, n, tid)
  }

  lemma KeepRelayed(env: Env, b: seq<Sys>, steps: seq<Step>, q: nat, n: nat, tid: nat)
    requires 0 < n < |b| && tid in b[n].cache && b[n].cache[tid].RunningPhase?
    requires tid in b[n - 1].cache && b[n - 1].cache[tid].RunningPhase? && RelayedAt(env, b, steps, q, n - 1, tid)
    requires var run, run' := b[n - 1].cache[tid].run, b[n].cache[tid].run;
             && run'.info == run.info && OpenRound(env, run') == OpenRound(env, run)
                 && run'.comm.output == run.comm.output
    ensures RelayedAt(env, b, steps, q, n, tid)
  {
    hide Relay, AfterReceiving;
  }

  /** The outputs after an update: the same ones, the opening ones, or the relayed
      inbox. */
  lemma UpdatedOutput(env: Env, run: Run, run': Run, device: Bytes, msgs: seq<ClientMessage>)
    requires ValidEnv(env) && Updates(env, run, run', device, msgs)
    ensures run'.info == run.info && LastRound(env, run') == LastRound(env, run)
    ensures || (run'.comm.output == run.comm.output && OpenRound(env, run') == OpenRound(env, run)
                && (Opening(run) ==> Opening(run')))
            || (run'.round == 1 && Opening(run'))
            || (run'.comm.output == Relay(AfterReceiving(run, device, msgs).comm).output
                && run'.round == run.round + 1 <= LastRound(env, run) && run.round >= 1)
  {
    hide Relay, WaitingFor, AfterReceiving;
    GatheringKeepsTask(run, device, msgs);
  }

  lemma OutputStep(env: Env, b: seq<Sys>, steps: seq<Step>, n: nat, tid: nat)
    requires ValidEnv(env) && Behaviour(env, b, steps) && 0 < n < |b| && OutputIsolated(env, b, steps, n - 1, tid)
    ensures OutputIsolated(env, b, steps, n, tid)
  {
    hide ReplyTo, Inv, Behaviour, Apply, Enabled, RelayedAt, Updates, Opening, Relay, AfterReceiving;
    StepAt(env, b, steps, n);
    if tid in b[n].cache && b[n].cache[tid].RunningPhase? {
      var s, step, s' := b[n - 1], steps[n - 1], b[n];
      RunsKeepInv(env, b, steps, n - 1);
      RunStep(env, s, step, tid);
      var run' := s'.cache[tid].run;
      if Begins(run') {
      } else {
        assert InAttempt(s, tid, run'.info.attempts) by { UpdatesKeepInfo(env, s, step, s', tid); }
        var run := s.cache[tid].run;
        if s.cache[tid] != s'.cache[tid] { UpdatedOutput(env, run, run', step.device, step.msgs); }
        if run'.comm.output == run.comm.output && OpenRound(env, run') == OpenRound(env, run) && run'.info == run.info {
          var p := n - 1;
          if exists q :: RelayedAt(env, b, steps, q, p, tid) {
            var q :| RelayedAt(env, b, steps, q, p, tid);
            KeepRelayed(env, b, steps, q, n, tid);
          }
        }
        if step.Submit? && run'.comm.output == Relay(AfterReceiving(run, step.device, step.msgs).comm).output
           && run'.round == run.round + 1 <= LastRound(env, run) && run.round >= 1 && s.cache[tid] != s'.cache[tid] {
          JustRelayed(env, b, steps, n, tid);
        }
      }
    }
  }

  lemma UpdatesKeepInfo(env: Env, s: Sys, step: Step, s': Sys, tid: nat)
    requires tid in s'.cache && s'.cache[tid].RunningPhase? && StepsTo(env, s, step, s', tid)
        && !Begins(s'.cache[tid].run)
    ensures InAttempt(s, tid, s'.cache[tid].run.info.attempts)
  {
    hide Opening, Relay, AfterReceiving, WaitingFor;
  }

  lemma JustRelayed(env: Env, b: seq<Sys>, steps: seq<Step>, n: nat, tid: nat)
    requires 0 < n < |b| && n <= |steps| && tid in b[n].cache && b[n].cache[tid].RunningPhase?
    requires var step, run' := steps[n - 1], b[n].cache[tid].run;
             && step.Submit? && step.tid == tid && step.attempt == run'.info.attempts
                 && InAttempt(b[n - 1], tid, run'.info.attempts)
             && var run := b[n - 1].cache[tid].run;
                && LastRound(env, run') == LastRound(env, run)
                && run'.comm.output == Relay(AfterReceiving(run, step.device, step.msgs).comm).output
                && run'.round == run.round + 1 <= LastRound(env, run)
    ensures RelayedAt(env, b, steps, n - 1, n, tid)
  {
    hide Relay, AfterReceiving;
  }

  lemma {:induction false} OutputsAreIsolated(env: Env, b: seq<Sys>, steps: seq<Step>, n: nat, tid: nat)
    requires ValidEnv(env) && Behaviour(env, b, steps) && n < |b|
    ensures OutputIsolated(env, b, steps, n, tid)
    decreases n
  {
    hide Behaviour, Apply, Enabled, RelayedAt;
    if n == 0 {
      BeginsEmpty(env, b, steps);
    } else {
      OutputsAreIsolated(env, b, steps, n - 1, tid);
      OutputStep(env, b, steps, n, tid);
    }
  }

  /** Every client message inside a relayed output, in every run, was submitted under
      the task's current attempt number, in the round before the one handed out, and
      waited in the inbox up to the step that relayed it. */
  lemma RelayedMessagesAreIsolated(env: Env, b: seq<Sys>, steps: seq<Step>, n: nat, tid: nat, j: nat, i: nat)
    returns (k: nat, q: nat, msg: ClientMessage)
    requires ValidEnv(env) && Behaviour(env, b, steps) && n < |b| && tid in b[n].cache && b[n].cache[tid].RunningPhase?
    requires b[n].cache[tid].run.round >= 1
    requires var output := b[n].cache[tid].run.comm.output;
             j in output && output[j].Relayed? && (i in output[j].broadcasts || i in output[j].unicasts)
    ensures var run := b[n].cache[tid].run;
            && k <= q < n && Submits(b[k], steps[k], tid, run.info.attempts, i, msg)
            && b[k].cache[tid].run.round == OpenRound(env, run) - 1
            && (forall m | k < m <= q :: InboxHolds(b[m], tid, run.info.attempts, i, msg))
            && i != j
            && (i in run.comm.output[j].broadcasts ==> msg.broadcast == Some(run.comm.output[j].broadcasts[i]))
            && (i in run.comm.output[j].unicasts ==>
                  j in msg.unicasts && msg.unicasts[j] == run.comm.output[j].unicasts[i])
  {
    hide Apply, Enabled, RelayedAt, Submits, Opening, Relay, AfterReceiving;
    OutputsAreIsolated(env, b, steps, n, tid);
    var run := b[n].cache[tid].run;
    assert !Opening(run) by { RelayedIsNotOpening(run, j); }
    q :| RelayedAt(env, b, steps, q, n, tid);
    RelayedParts(env, b, steps, q, n, tid);
    var run0 := b[q].cache[tid].run;
    var after := AfterReceiving(run0, steps[q].device, steps[q].msgs);
    RelayedPayload(after.comm, j, i);
    msg := after.comm.input[i];
    StoredMessage(run0, steps[q].device, steps[q].msgs, i);
    if InputAt(run0.comm, i) == Some(msg) {
      InboxesAreIsolated(env, b, steps, q, tid);
      k :| Fresh(env, b, steps, k, q, tid, i, msg);
    } else {
      k := q;
      assert Submits(b[q], steps[q], tid, run.info.attempts, i, msg) by { SubmittedNow(b[q], steps[q], tid, i, msg); }
    }
  }

  lemma RelayedIsNotOpening(run: Run, j: nat)
    requires run.round >= 1 && j in run.comm.output && run.comm.output[j].Relayed?
    ensures !Opening(run)
  {
  }

  lemma RelayedParts(env: Env, b: seq<Sys>, steps: seq<Step>, q: nat, n: nat, tid: nat)
    requires n < |b| && tid in b[n].cache && b[n].cache[tid].RunningPhase? && RelayedAt(env, b, steps, q, n, tid)
    ensures var run := b[n].cache[tid].run;
            && q < n && q < |steps| && steps[q].Submit? && steps[q].tid == tid && steps[q].attempt == run.info.attempts
            && InAttempt(b[q], tid, run.info.attempts)
            && b[q].cache[tid].run.round == OpenRound(env, run) - 1 < LastRound(env, b[q].cache[tid].run)
            && run.comm.output == Relay(AfterReceiving(b[q].cache[tid].run, steps[q].device, steps[q].msgs).comm).output
  {
    hide Relay, AfterReceiving;
  }

  lemma RelayedPayload(c: Comm, j: nat, i: nat)
    requires var output := Relay(c).output; j in output && (i in output[j].broadcasts || i in output[j].unicasts)
    ensures i != j && i in c.input
    ensures var output, msg := Relay(c).output, c.input[i];
            && (i in output[j].broadcasts ==> msg.broadcast == Some(output[j].broadcasts[i]))
            && (i in output[j].unicasts ==> j in msg.unicasts && msg.unicasts[j] == output[j].unicasts[i])
  {
  }

  lemma SubmittedNow(s: Sys, step: Step, tid: nat, i: nat, msg: ClientMessage)
    requires step.Submit? && step.tid == tid && InAttempt(s, tid, step.attempt)
    requires SentBy(s.cache[tid].run.comm, step.device, step.msgs, i, msg)
    ensures Submits(s, step, tid, step.attempt, i, msg)
  {
  }

  // ------------------------------------------------------ nothing is left behind

  /** The message of index `i` goes to every other index: the broadcast if there is
      one, and what is addressed to it. */
  ghost predicate HandsOn(c: Comm, i: nat, msg: ClientMessage) {
    forall j | j in Indices(c) && j != i ::
      && j in c.output && c.output[j].Relayed?
      && (if i in c.output[j].broadcasts then msg.broadcast == Some(c.output[j].broadcasts[i]) else msg.broadcast.None?)
      && (if i in c.output[j].unicasts then j in msg.unicasts && msg.unicasts[j] == c.output[j].unicasts[i]
          else j !in msg.unicasts)
  }

  lemma RelayHandsOn(c: Comm, i: nat)
    requires i in c.input
    ensures HandsOn(Relay(c), i, c.input[i])
  {
    hide Relay, Indices;
    assert Indices(Relay(c)) == Indices(c) by { RelayKeepsIndices(c); }
    forall j | j in Indices(c) && j != i
      ensures var r, msg := Relay(c), c.input[i];
              && j in r.output && r.output[j].Relayed?
              && (if i in r.output[j].broadcasts then msg.broadcast == Some(r.output[j].broadcasts[i])
                  else msg.broadcast.None?)
              && (if i in r.output[j].unicasts then j in msg.unicasts && msg.unicasts[j] == r.output[j].unicasts[i]
                  else j !in msg.unicasts)
    {
      RelayIsExact(c, i, j);
    }
  }

  lemma RelayKeepsIndices(c: Comm)
    ensures Indices(Relay(c)) == Indices(c)
  {
  }

  /** The task is in the next round of the same attempt after the step. */
  ghost predicate OpensRound(env: Env, s: Sys, s': Sys, tid: nat) {
    && tid in s.cache && s.cache[tid].RunningPhase? && tid in s'.cache && s'.cache[tid].RunningPhase?
    && var run, run' := s.cache[tid].run, s'.cache[tid].run;
       run'.info.attempts == run.info.attempts && 1 <= run.round < LastRound(env, run) && run'.round == run.round + 1
  }

  /** Only a batch that completes the round opens the next one, and it is opened with
      the relayed inbox. */
  lemma OpenedByBatch(env: Env, s: Sys, step: Step, tid: nat)
    requires ValidEnv(env) && Inv(env, s) && Enabled(s, step) && OpensRound(env, s, Apply(env, s, step), tid)
    ensures step.Submit? && step.tid == tid && step.attempt == s.cache[tid].run.info.attempts
    ensures var after := AfterReceiving(s.cache[tid].run, step.device, step.msgs);
            RoundReceived(after.comm) && Apply(env, s, step).cache[tid].run.comm == Relay(after.comm)
  {
    hide Inv, Apply, Enabled, TaskInv, RowInv, Touches, LeftAlone, Handled, Updates, AfterReceiving, Relay,
         RoundReceived;
    var s' := Apply(env, s, step);
    CacheHasRows(env, s);
    InvParts(env, s, tid);
    if !Touches(s, step, tid) {
      Untouched(env, s, step, tid);
      AloneParts(s, step, s', tid);
      if step.Reboot? { RebootEmpties(env, s); }
      assert false;
    } else {
      TouchedStep(env, s, step, tid);
      TouchedIsUpdated(env, s, step, tid);
      UpdatedOpens(env, s.cache[tid].run, s'.cache[tid].run, step.device, step.msgs);
    }
  }

  lemma TouchedIsUpdated(env: Env, s: Sys, step: Step, tid: nat)
    requires ValidEnv(env) && Enabled(s, step) && Touches(s, step, tid) && tid in s.rows && tid in s.cache
    requires TaskInv(env, s.groups, s.rows[tid], s.cache[tid]) && s.cache[tid].RunningPhase?
    requires var task := Handled(env, s, step, tid).task;
             && task.RunningPhase? && task.run.info.attempts == s.cache[tid].run.info.attempts
             && task.run.round != s.cache[tid].run.round
    ensures step.Submit? && step.tid == tid && step.attempt == s.cache[tid].run.info.attempts
    ensures Updates(env, s.cache[tid].run, Handled(env, s, step, tid).task.run, step.device, step.msgs)
  {
    hide Enabled, Updates, TaskInv, Decide, UpdateTask, RestartTask, StoreAck, Began;
    var slot := SlotOf(s, tid);
    match step
    case CastVote(_, device, accept, _, chosen, helper) => DecideRefused(slot, device, accept, chosen, helper);
    case Submit(_, _, _, _, _, _) => SubmitRuns(env, s, step);
    case Confirm(_, _) =>
    case RestartNext(helper) => RestartIsNewAttempt(slot, helper);
  }

  lemma UpdatedOpens(env: Env, run: Run, run': Run, device: Bytes, msgs: seq<ClientMessage>)
    requires Updates(env, run, run', device, msgs) && 1 <= run.round < LastRound(env, run) && run'.round == run.round + 1
    ensures var after := AfterReceiving(run, device, msgs); RoundReceived(after.comm) && run'.comm == Relay(after.comm)
  {
    hide AfterReceiving, Relay, RoundReceived, WaitingFor, Opening;
  }

  /** When a round completes in a run, every active share has sent a message in it,
      under this attempt, that waited in the inbox until then; and its broadcast is
      handed to every other active share, and what it addressed to one is handed to
      that one. */
  lemma EveryMessageIsHandedOn(env: Env, b: seq<Sys>, steps: seq<Step>, q: nat, tid: nat, i: nat)
    returns (k: nat, msg: ClientMessage)
    requires ValidEnv(env) && Behaviour(env, b, steps) && q < |steps| && q + 1 < |b|
    requires OpensRound(env, b[q], b[q + 1], tid) && i in Indices(b[q].cache[tid].run.comm)
    ensures var run := b[q].cache[tid].run;
            && k <= q && Submits(b[k], steps[k], tid, run.info.attempts, i, msg)
            && b[k].cache[tid].run.round == run.round
            && (forall m | k < m <= q :: InboxHolds(b[m], tid, run.info.attempts, i, msg))
            && HandsOn(b[q + 1].cache[tid].run.comm, i, msg)
  {
    hide ReplyTo, Behaviour, Inv, Apply, Enabled, Submits, HandsOn, Relay, AfterReceiving, RoundReceived, DeviceClosed,
         Indices, RowInv, TaskInv, Sound, RunOk;
    StepAt(env, b, steps, q + 1);
    RunsKeepInv(env, b, steps, q);
    OpenedByBatch(env, b[q], steps[q], tid);
    var run := b[q].cache[tid].run;
    var after := AfterReceiving(run, steps[q].device, steps[q].msgs);
    RunningTasksAreOk(env, b, steps, q, tid);
    CompleteInbox(run, steps[q].device, steps[q].msgs);
    msg := after.comm.input[i];
    RelayHandsOn(after.comm, i);
    StoredMessage(run, steps[q].device, steps[q].msgs, i);
    if InputAt(run.comm, i) == Some(msg) {
      InboxesAreIsolated(env, b, steps, q, tid);
      k := InboxMember(env, b, steps, q, tid, i);
      FreshParts(env, b, steps, k, q, tid, i, msg);
    } else {
      k := q;
      SubmittedNow(b[q], steps[q], tid, i, msg);
    }
  }

  lemma FreshParts(env: Env, b: seq<Sys>, steps: seq<Step>, k: nat, n: nat, tid: nat, i: nat, msg: ClientMessage)
    requires n < |b| && tid in b[n].cache && b[n].cache[tid].RunningPhase? && Fresh(env, b, steps, k, n, tid, i, msg)
    requires b[n].cache[tid].run.round <= LastRound(env, b[n].cache[tid].run)
    ensures var attempts := b[n].cache[tid].run.info.attempts;
            && k < n && k < |steps| && Submits(b[k], steps[k], tid, attempts, i, msg)
            && b[k].cache[tid].run.round == b[n].cache[tid].run.round
            && forall m | k < m <= n :: InboxHolds(b[m], tid, attempts, i, msg)
  {
    hide SentBy;
  }

  /** A complete inbox holds a message of every active share. */
  lemma CompleteInbox(run: Run, device: Bytes, msgs: seq<ClientMessage>)
    requires DeviceClosed(run.comm) && RoundReceived(AfterReceiving(run, device, msgs).comm)
    ensures AfterReceiving(run, device, msgs).comm.input.Keys == Indices(run.comm)
  {
    hide DeviceClosed, RoundReceived, WaitingFor;
    ReceivingKeepsClosed(run, device, msgs);
    RoundReceivedIffNobodyAwaited(AfterReceiving(run, device, msgs).comm);
  }
}
