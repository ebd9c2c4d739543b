/** The restart timer over whole runs, with server restarts that lose the
    last-update map, and with requests in the midst of its passes. */
module Timer {
  import opened Basics
  import opened Shares
  import opened Voting
  import opened Communication
  import opened Rounds
  import opened Store
  import opened Handlers
  import opened Refinement
  import opened Preservation
  import opened Invariant
  import opened System
  import opened Runs

  /** Step `k` is a vote that accepts the task. */
  ghost predicate AcceptedAt(b: seq<Sys>, steps: seq<Step>, k: nat, tid: nat) {
    && k < |steps| && k < |b|
    && steps[k].CastVote? && steps[k].tid == tid
    && tid in b[k].rows && tid in b[k].cache && Accepting(b[k].cache[tid], steps[k].device, steps[k].accept)
  }

  ghost predicate Accepting(task: Task, device: Bytes, accept: bool) {
    && task.VotingPhase? && device in IdSet(task.info.participants)
    && Accepts(WithVote(task, device, accept).decisions) >= task.acceptThreshold
  }

  /** Step `j` restarts the task. */
  ghost predicate RestartedAt(b: seq<Sys>, steps: seq<Step>, j: nat, tid: nat) {
    && j < |steps| && j < |b| && steps[j].RestartNext? && b[j].timer.todo != [] && b[j].timer.todo[0] == tid
    && tid in b[j].cache && b[j].cache[tid].RunningPhase?
  }

  /** Step `i` is an update call that finds the task running. */
  ghost predicate UpdatedAt(b: seq<Sys>, steps: seq<Step>, i: nat, tid: nat) {
    && i < |steps| && i < |b| && steps[i].Submit? && steps[i].tid == tid
    && tid in b[i].cache && b[i].cache[tid].RunningPhase?
  }

  /** Step `q` is the query of the pass that state `j` is in. */
  ghost predicate PassSince(b: seq<Sys>, steps: seq<Step>, q: nat, j: nat) {
    && q < j < |b| && q < |steps| && steps[q].Query? && b[j].timer.clock == steps[q].clock
    && forall m | q < m < j && m < |steps| :: !steps[m].Query? && !steps[m].Reboot?
  }

  // ---------------------------------------------------------- attempts and steps

  lemma DecideKeepsAttempts(slot: Slot, id: Bytes, accept: bool, chosen: seq<Device>, helper: Helper)
    ensures Decide(slot, id, accept, chosen, helper).0.row.attempts == slot.row.attempts
  {
    hide Decided, Accepts, Rejects, TotalShares, CreateRun, Initialize, ActiveMap, Tally, IdSet;
  }

  lemma UpdateKeepsAttempts(env: Env, groups: Groups, slot: Slot, device: Bytes, msgs: seq<ClientMessage>,
                            attempt: nat, order: seq<nat>, helper: Helper)
    requires Applies(slot.task, device, msgs, order)
    ensures UpdateTask(env, groups, slot, device, msgs, attempt, order, helper).0.row.attempts == slot.row.attempts
  {
    hide Update, DeviceClosed, Enumerates, AfterReceiving;
  }

  lemma RestartCounts(slot: Slot, helper: Helper)
    requires slot.task.RunningPhase?
    ensures RestartTask(slot, helper).0.row.attempts == slot.row.attempts + 1
  {
    hide Restart;
  }

  /** The step restarts the task. */
  predicate Restarts(s: Sys, step: Step, tid: nat) {
    && step.RestartNext? && s.timer.todo != [] && s.timer.todo[0] == tid
    && tid in s.cache && s.cache[tid].RunningPhase?
  }

  /** A restart by the timer adds an attempt, and nothing else changes their number. */
  lemma AttemptsStep(env: Env, s: Sys, step: Step, tid: nat)
    requires Inv(env, s) && Enabled(s, step) && tid in s.rows
    ensures var s' := Apply(env, s, step);
            && tid in s'.rows
            && (if Restarts(s, step, tid) then s'.rows[tid].attempts == s.rows[tid].attempts + 1
                else s'.rows[tid].attempts == s.rows[tid].attempts)
  {
    hide Inv, Apply, Enabled, Handled, Touches, LeftAlone, Restarts;
    CacheHasRows(env, s);
    if !Touches(s, step, tid) {
      Untouched(env, s, step, tid);
      AloneParts(s, step, Apply(env, s, step), tid);
      UntouchedNotRestarted(s, step, tid);
    } else {
      TouchedStep(env, s, step, tid);
      HandledAttempts(env, s, step, tid);
    }
  }

  lemma UntouchedNotRestarted(s: Sys, step: Step, tid: nat)
    requires !Touches(s, step, tid)
    ensures !Restarts(s, step, tid)
  {
  }

  lemma HandledAttempts(env: Env, s: Sys, step: Step, tid: nat)
    requires Enabled(s, step) && Touches(s, step, tid) && tid in s.rows && tid in s.cache
    ensures var attempts := Handled(env, s, step, tid).row.attempts;
            if Restarts(s, step, tid) then attempts == s.rows[tid].attempts + 1 else attempts == s.rows[tid].attempts
  {
    hide Enabled, Decide, UpdateTask, StoreAck, RestartTask;
    match step
    case CastVote(_, device, accept, _, chosen, helper) =>
      DecideKeepsAttempts(SlotOf(s, tid), device, accept, chosen, helper);
    case Submit(_, _, _, _, _, _) => SubmitKeepsAttempts(env, s, step);
    case Confirm(_, device) => StoreAckKeeps(s.rows[tid], device);
    case RestartNext(helper) =>
      if s.cache[tid].RunningPhase? { RestartCounts(SlotOf(s, tid), helper); }
  }

  lemma SubmitKeepsAttempts(env: Env, s: Sys, step: Step)
    requires Enabled(s, step) && step.Submit?
    ensures Handled(env, s, step, step.tid).row.attempts == s.rows[step.tid].attempts
  {
    hide UpdateTask, Applies;
    UpdateKeepsAttempts(env, s.groups, SlotOf(s, step.tid), step.device, step.msgs, step.attempt, step.order,
                        step.helper);
  }

  /** The clock never runs backwards; an entry of the last-update map is either
      kept, or made now, or lost. */
  lemma ClockStep(env: Env, s: Sys, step: Step, tid: nat)
    requires Enabled(s, step)
    ensures var s' := Apply(env, s, step);
            && s.now <= s'.now
            && (tid in s'.lastUpdates ==>
                  (tid in s.lastUpdates && s'.lastUpdates[tid] == s.lastUpdates[tid]) || s'.lastUpdates[tid] == s.now)
  {
    hide Put, Decide, UpdateTask, Acknowledge, RestartTask, Rebuild, NewGroupTask, NewThresholdTask, Draws, Applies,
         Counted, Listing, GroupListing, StaleOf, QueryAnswer, ReadMore, Snapshot, Complete;
  }

  /** What a step does to the timer's list: a query fills it with stale tasks; a restart
      takes its first one off, or all if that one is found not running; any other step
      leaves it or, for a server restart, empties it. */
  lemma PassStep(env: Env, s: Sys, step: Step)
    requires Enabled(s, step)
    ensures var t, t' := s.timer, Apply(env, s, step).timer;
            && (step.Query? ==> t' == Pass(step.clock, StaleOf(s, step.clock, step.ids)) && step.clock <= s.now)
            && (step.RestartNext? ==>
                  && t.todo != [] && t'.clock == t.clock && t.todo[0] in s.cache
                  && t'.todo == (if s.cache[t.todo[0]].RunningPhase? then t.todo[1..] else []))
            && (step.Reboot? ==> t'.todo == [])
            && (!step.Query? && !step.RestartNext? && !step.Reboot? ==> t' == t)
  {
    hide Put, Decide, UpdateTask, Acknowledge, RestartTask, Rebuild, NewGroupTask, NewThresholdTask, Draws, Applies,
         Counted, Listing, GroupListing, StaleOf, WithTimes, QueryAnswer, ReadMore, Snapshot, Complete, Touched;
  }

  /** The task is on record as begun and not ended. */
  predicate UnderWay(s: Sys, tid: nat) {
    && tid in s.rows && s.rows[tid].result == None
    && (s.rows[tid].certificatesSent == Some(true) || s.rows[tid].round >= 1)
  }

  /** In every run, the timer's query puts down, each once, exactly the tasks under way
      whose last update on record lies more than 30 seconds before its time. */
  lemma DueIffStale(env: Env, b: seq<Sys>, steps: seq<Step>, n: nat, tid: nat)
    requires Behaviour(env, b, steps) && n < |steps| && n + 1 < |b| && steps[n].Query?
    ensures var todo := b[n + 1].timer.todo;
            && (tid in todo <==>
                  && UnderWay(b[n], tid) && tid in b[n].lastUpdates
                  && steps[n].clock - b[n].lastUpdates[tid] > 30)
            && (forall i, j | 0 <= i < j < |todo| :: todo[i] != todo[j])
            && steps[n].clock <= b[n].now && b[n].timer.todo == []
  {
    hide Behaviour, WithTimes, StaleOf, Distinct;
    StepAt(env, b, steps, n + 1);
    StaleDistinct(b[n], steps[n].clock, steps[n].ids);
    DistinctMeans(b[n + 1].timer.todo);
    assert tid in steps[n].ids <==> tid in b[n].rows && RestartCandidate(b[n].rows[tid]);
  }

  lemma DistinctMeans(ids: seq<nat>)
    requires Distinct(ids)
    ensures forall i, j | 0 <= i < j < |ids| :: ids[i] != ids[j]
  {
  }

  /** The step is one that puts down the time for the task: a vote that finds it voted on,
      an update or a restart that finds it running, or a query that finds it under way
      and without a time. */
  predicate Timed(s: Sys, step: Step, tid: nat) {
    match step
    case CastVote(t, _, _, _, _, _) => t == tid && tid in s.cache && s.cache[tid].VotingPhase?
    case Submit(t, _, _, _, _, _) => t == tid && tid in s.cache && s.cache[tid].RunningPhase?
    case RestartNext(_) => s.timer.todo != [] && s.timer.todo[0] == tid && tid in s.cache && s.cache[tid].RunningPhase?
    case Query(_, _) => UnderWay(s, tid) && tid !in s.lastUpdates
    case _ => false
  }

  lemma QueryTimes(s: Sys, step: Step, tid: nat)
    requires Enabled(s, step) && step.Query?
    ensures var m := WithTimes(s.lastUpdates, step.ids, s.now);
            if Timed(s, step, tid) then tid in m && m[tid] == s.now
            else (tid in m <==> tid in s.lastUpdates) && (tid in m ==> m[tid] == s.lastUpdates[tid])
  {
    assert tid in step.ids <==> tid in s.rows && RestartCandidate(s.rows[tid]);
  }

  /** Such a step puts down the present time; a restart of the server loses all times; any
      other step leaves the time as it is. */
  lemma TimeStep(env: Env, s: Sys, step: Step, tid: nat)
    requires Enabled(s, step)
    ensures var m := Apply(env, s, step).lastUpdates;
            if step.Reboot? then tid !in m
            else if Timed(s, step, tid) then tid in m && m[tid] == s.now
            else (tid in m <==> tid in s.lastUpdates) && (tid in m ==> m[tid] == s.lastUpdates[tid])
  {
    hide Decide, UpdateTask, Acknowledge, RestartTask, Rebuild, NewGroupTask, NewThresholdTask, Draws, Applies,
         Counted, Listing, GroupListing, StaleOf, WithTimes, QueryAnswer, ReadMore, Snapshot, Complete, UnderWay;
    if step.Query? { QueryTimes(s, step, tid); }
  }

  lemma RestartIsNoted(env: Env, s: Sys, step: Step, tid: nat)
    requires Enabled(s, step) && Restarts(s, step, tid)
    ensures var s' := Apply(env, s, step);
            s'.now == s.now && tid in s'.lastUpdates && s'.lastUpdates[tid] == s.now && s'.timer.todo == s.timer.todo[1..]
  {
    hide RestartTask;
  }

  // ------------------------------------------------------- 31 seconds an attempt

  /** Each attempt since `start` has taken 31 seconds, up to the last entry, and one more
      up to the query that put the task on the timer's list. */
  ghost predicate Spaced(s: Sys, start: nat, tid: nat) {
    && tid in s.rows
    && 31 * s.rows[tid].attempts <= s.now - start
    && (tid in s.lastUpdates ==> 31 * s.rows[tid].attempts <= s.lastUpdates[tid] - start && s.lastUpdates[tid] <= s.now)
    && (tid in s.timer.todo ==> 31 * (s.rows[tid].attempts + 1) <= s.timer.clock - start)
  }

  lemma SpacedStep(env: Env, s: Sys, step: Step, start: nat, tid: nat)
    requires Inv(env, s) && Enabled(s, step) && Spaced(s, start, tid)
    ensures Spaced(Apply(env, s, step), start, tid)
  {
    hide Inv, Apply, Enabled, Distinct, StaleOf, Began;
    AttemptsStep(env, s, step, tid);
    ClockStep(env, s, step, tid);
    PassStep(env, s, step);
    CacheHasRows(env, s);
    if Restarts(s, step, tid) {
      RestDistinct(s.timer.todo);
      RestartIsNoted(env, s, step, tid);
    }
  }

  lemma AcceptedIsSpaced(env: Env, b: seq<Sys>, steps: seq<Step>, k: nat, tid: nat)
    requires ValidEnv(env) && Behaviour(env, b, steps) && AcceptedAt(b, steps, k, tid)
    ensures k + 1 < |b| && Spaced(b[k + 1], b[k].now, tid)
  {
    hide ReplyTo, Inv, Behaviour, Apply, Enabled, Accepts, WithVote, IdSet, Spaced;
    BeginsEmpty(env, b, steps);
    RunsKeepInv(env, b, steps, k);
    StepAt(env, b, steps, k + 1);
    VoteIsSpaced(env, b[k], steps[k]);
  }

  lemma VoteIsSpaced(env: Env, s: Sys, step: Step)
    requires Inv(env, s) && Enabled(s, step) && step.CastVote? && step.tid in s.rows && step.tid in s.cache
    requires s.cache[step.tid].VotingPhase?
    ensures Spaced(Apply(env, s, step), s.now, step.tid)
  {
    hide Inv, TaskInv, RowInv, Apply, Enabled, Began, Distinct;
    InvParts(env, s, step.tid);
    VotingNotBegun(env, s.groups, s.rows[step.tid], s.cache[step.tid]);
    CacheHasRows(env, s);
    AttemptsStep(env, s, step, step.tid);
    PassStep(env, s, step);
    VoteIsNoted(env, s, step);
  }

  lemma VoteIsNoted(env: Env, s: Sys, step: Step)
    requires Enabled(s, step) && step.CastVote? && s.cache[step.tid].VotingPhase?
    ensures var s' := Apply(env, s, step);
            s'.now == s.now && step.tid in s'.lastUpdates && s'.lastUpdates[step.tid] == s.now
  {
    hide Decide, Draws;
  }

  lemma {:induction false} SpacedSince(env: Env, b: seq<Sys>, steps: seq<Step>, k: nat, j: nat, tid: nat)
    requires ValidEnv(env) && Behaviour(env, b, steps) && AcceptedAt(b, steps, k, tid) && k < j < |b|
    ensures Spaced(b[j], b[k].now, tid)
  {
    hide *;
    if j == k + 1 {
      AcceptedIsSpaced(env, b, steps, k, tid);
    } else {
      SpacedSince(env, b, steps, k, j - 1, tid);
      StepAt(env, b, steps, j);
      RunsKeepInv(env, b, steps, j - 1);
      SpacedStep(env, b[j - 1], steps[j - 1], b[k].now, tid);
    }
  }

  // --------------------------------------------------------- restarted, so accepted

  /** A task that runs or has been restarted has the votes that accept it on record. */
  lemma BegunIsAccepted(env: Env, groups: Groups, row: TaskRow)
    requires ValidEnv(env) && RowInv(env, groups, row) && (RestartCandidate(row) || row.attempts > 0)
    ensures AcceptedRow(row)
  {
    hide Matches, Tracked, UnstartedRow, AcceptedRow, RestartCandidate, CountsWithin;
    if Tracked(row) {
      var task :| Matches(env, groups, row, task);
      CandidateIffRunning(env, groups, row, task);
      MatchedAttempts(env, groups, row, task);
    } else {
      UnstartedIsNoCandidate(groups, row);
      UnstartedHasNoAttempts(groups, row);
    }
  }

  lemma MatchedAttempts(env: Env, groups: Groups, row: TaskRow, task: Task)
    requires Matches(env, groups, row, task)
    ensures task.RunningPhase? || row.attempts > 0 ==> AcceptedRow(row)
  {
    hide AcceptedRow, Listing, RowBase, RunOk, ActiveMatches, ContextOf, Startable, Cast, SameVotes, Accepts, Rejects,
         StoredAcks, GroupOf;
  }

  lemma UnstartedHasNoAttempts(groups: Groups, row: TaskRow)
    requires UnstartedRow(groups, row)
    ensures row.attempts == 0
  {
    hide RowBase, Sound, Launched, DeclinedRow;
  }

  lemma VoteAccepts(env: Env, groups: Groups, slot: Slot, id: Bytes, accept: bool, chosen: seq<Device>, helper: Helper)
    requires TaskInv(env, groups, slot.row, slot.task) && !AcceptedRow(slot.row)
    requires AcceptedRow(Decide(slot, id, accept, chosen, helper).0.row)
    ensures Accepting(slot.task, id, accept)
  {
    hide TaskInv, Accepts, StoreDecision, Decide, Decided, IdSet, RowBase, Voted, AcceptedRow;
    if !slot.task.VotingPhase? || id !in IdSet(slot.task.info.participants) {
      StrangerChangesNothing(slot, id, accept, chosen, helper);
      assert false;
    } else {
      var bare := slot.row.(active := map[]);
      VotingIsBare(env, groups, slot.row, slot.task);
      DecidedRow(slot, id, accept, chosen, helper);
      VoteIsRecorded(groups, Slot(bare, slot.task), id, accept);
      VotedAccepts(groups, StoreDecision(bare, id, accept), WithVote(slot.task, id, accept),
                   Decide(slot, id, accept, chosen, helper).0.row);
      WithVoteThreshold(slot.task, id, accept);
    }
  }

  lemma WithVoteThreshold(task: Task, id: Bytes, accept: bool)
    requires task.VotingPhase?
    ensures WithVote(task, id, accept).acceptThreshold == task.acceptThreshold
  {
    hide Decided;
  }

  lemma VotingIsBare(env: Env, groups: Groups, row: TaskRow, task: Task)
    requires TaskInv(env, groups, row, task) && task.VotingPhase?
    ensures var bare := row.(active := map[]); RowBase(groups, bare) && Voted(groups, bare, task)
  {
    hide Tracked, RowBase, Listing, Cast, SameVotes, ContextOf, CountsWithin, UnstartedRow, Accepts, Rejects, Waking,
         AcceptThreshold;
    if Tracked(row) {
      assert row.(active := map[]) == row;
    }
  }

  lemma SettleStanding(row: TaskRow, task: Task, chosen: seq<Device>, helper: Helper)
    requires task.VotingPhase?
    ensures var row' := Settle(row, task, chosen, helper).0.row;
            row'.kind == row.kind && row'.threshold == row.threshold && row'.participants == row.participants
  {
    hide Verdict, TotalShares, CreateRun, Initialize, ActiveMap, Tally, SortById;
  }

  /** What a vote by a participant leaves of the row, as far as votes and thresholds go. */
  lemma DecidedRow(slot: Slot, id: Bytes, accept: bool, chosen: seq<Device>, helper: Helper)
    requires slot.task.VotingPhase? && id in IdSet(slot.task.info.participants)
    ensures var row', stored := Decide(slot, id, accept, chosen, helper).0.row,
                                StoreDecision(slot.row.(active := map[]), id, accept);
            row'.kind == stored.kind && row'.threshold == stored.threshold && row'.participants == stored.participants
  {
    hide Settle, WithVote, IdSet;
    SettleStanding(StoreDecision(slot.row, id, accept), WithVote(slot.task, id, accept), chosen, helper);
  }

  lemma StrangerChangesNothing(slot: Slot, id: Bytes, accept: bool, chosen: seq<Device>, helper: Helper)
    requires !slot.task.VotingPhase? || id !in IdSet(slot.task.info.participants)
    ensures Decide(slot, id, accept, chosen, helper).0 == slot
  {
    hide Settle, WithVote, IdSet;
  }

  lemma VotedAccepts(groups: Groups, row: TaskRow, task: Task, row': TaskRow)
    requires task.VotingPhase? && RowBase(groups, row) && Voted(groups, row, task)
    requires row'.kind == row.kind && row'.threshold == row.threshold && row'.participants == row.participants
    ensures AcceptedRow(row') <==> Accepts(task.decisions) >= task.acceptThreshold
  {
    hide RowBase, Listing, Cast, ContextOf, Accepts, StoredVotes, MapSum;
    SameVotesTally(task.decisions, row.participants);
  }

  lemma SameAccepted(row: TaskRow, row': TaskRow)
    requires row'.kind == row.kind && row'.threshold == row.threshold
    requires StoredVotes(row'.participants) == StoredVotes(row.participants)
    requires RowWeights(row'.participants) == RowWeights(row.participants)
    ensures AcceptedRow(row') <==> AcceptedRow(row)
  {
  }

  /** The step that puts the accepting votes of a task on record is an accepting vote. */
  lemma AcceptingStep(env: Env, s: Sys, step: Step, tid: nat)
    requires ValidEnv(env) && Inv(env, s) && Enabled(s, step) && tid in s.rows && !AcceptedRow(s.rows[tid])
    requires tid in Apply(env, s, step).rows && AcceptedRow(Apply(env, s, step).rows[tid])
    ensures step.CastVote? && step.tid == tid && tid in s.cache && Accepting(s.cache[tid], step.device, step.accept)
  {
    hide Inv, Apply, Enabled, Handled, Touches, LeftAlone, AcceptedRow, Accepting, TaskInv, RowInv;
    CacheHasRows(env, s);
    if !Touches(s, step, tid) {
      Untouched(env, s, step, tid);
      AloneParts(s, step, Apply(env, s, step), tid);
    } else {
      TouchedStep(env, s, step, tid);
      InvParts(env, s, tid);
      HandledAccepts(env, s, step, tid);
    }
  }

  lemma HandledAccepts(env: Env, s: Sys, step: Step, tid: nat)
    requires ValidEnv(env) && Enabled(s, step) && Touches(s, step, tid) && tid in s.rows && tid in s.cache
    requires TaskInv(env, s.groups, s.rows[tid], s.cache[tid]) && !AcceptedRow(s.rows[tid])
    requires AcceptedRow(Handled(env, s, step, tid).row)
    ensures step.CastVote? && step.tid == tid && Accepting(s.cache[tid], step.device, step.accept)
  {
    hide Enabled, Decide, UpdateTask, StoreAck, RestartTask, AcceptedRow, Accepting, TaskInv, StoredVotes, RowWeights;
    var row := s.rows[tid];
    match step
    case CastVote(_, device, accept, _, chosen, helper) =>
      VoteAccepts(env, s.groups, SlotOf(s, tid), device, accept, chosen, helper);
    case Submit(_, _, _, _, _, _) =>
      SubmitStanding(env, s, step);
      SameAccepted(row, Handled(env, s, step, tid).row);
    case Confirm(_, device) =>
      StoreAckKeeps(row, device);
      SameAccepted(row, Handled(env, s, step, tid).row);
    case RestartNext(helper) =>
      RestartShape(SlotOf(s, tid), helper);
      SameAccepted(row, Handled(env, s, step, tid).row);
  }

  lemma RestartShape(slot: Slot, helper: Helper)
    ensures var row' := RestartTask(slot, helper).0.row;
            && row'.participants == slot.row.participants
            && row'.kind == slot.row.kind && row'.threshold == slot.row.threshold
  {
    hide Restart;
  }

  lemma SubmitStanding(env: Env, s: Sys, step: Step)
    requires ValidEnv(env) && Enabled(s, step) && step.Submit?
    requires TaskInv(env, s.groups, s.rows[step.tid], s.cache[step.tid])
    ensures var row, row' := s.rows[step.tid], Handled(env, s, step, step.tid).row;
            row'.participants == row.participants && row'.kind == row.kind && row'.threshold == row.threshold
  {
    hide UpdateTask, Applies, TaskInv, GroupOk;
    UpdateKeeps(env, s.groups, SlotOf(s, step.tid), step.device, step.msgs, step.attempt, step.order, step.helper);
  }

  lemma NewNotAccepted(env: Env, groups: Groups, slot: Slot)
    requires Matches(env, groups, slot.row, slot.task) && slot.task.VotingPhase?
    ensures !AcceptedRow(slot.row)
  {
    hide RowBase, Listing, Cast, ContextOf, Accepts, Rejects, StoredVotes;
    SameVotesTally(slot.task.decisions, slot.row.participants);
  }

  /** A new task is not accepted yet. */
  lemma NewTaskNotAccepted(env: Env, s: Sys, step: Step, tid: nat)
    requires Inv(env, s) && Enabled(s, step) && tid !in s.rows && tid in Apply(env, s, step).rows
    ensures !AcceptedRow(Apply(env, s, step).rows[tid])
  {
    hide Inv, AcceptedRow, Apply, Enabled, Requested, Matches;
    NewTaskIsRequested(env, s, step, tid);
    RequestedParts(s, step);
    RequestedMatches(env, s, step);
    NewNotAccepted(env, s.groups, Requested(s, step).value);
  }

  lemma RequestedMatches(env: Env, s: Sys, step: Step)
    requires Inv(env, s) && Enabled(s, step) && (step.RequestGroup? || step.RequestTask?) && Requested(s, step).Some?
    ensures Matches(env, s.groups, Requested(s, step).value.row, Requested(s, step).value.task)
  {
    hide Inv, Matches, Counted, GroupListing, NameValid, GroupOk, NewRow, TotalShares;
    if step.RequestGroup? {
      CountedOnce(step.requested, s.devices, step.listing);
      NewGroupTaskMatches(env, s.groups, step.name, step.listing, step.threshold, step.protocol, step.keyType);
    } else {
      GroupsOk(env, s, step.gid);
      NewThresholdTaskMatches(env, s.groups, step.gid, step.decrypt, step.name, step.data, step.listing);
    }
  }

  /** A task with accepting votes on record was accepted at some earlier step. */
  lemma {:induction false} WasAccepted(env: Env, b: seq<Sys>, steps: seq<Step>, j: nat, tid: nat) returns (k: nat)
    requires ValidEnv(env) && Behaviour(env, b, steps) && j < |b| && tid in b[j].rows && AcceptedRow(b[j].rows[tid])
    ensures k < j && AcceptedAt(b, steps, k, tid)
    decreases j
  {
    hide *;
    BeginsEmpty(env, b, steps);
    assert j > 0;
    StepAt(env, b, steps, j);
    RunsKeepInv(env, b, steps, j - 1);
    if tid !in b[j - 1].rows {
      NewTaskNotAccepted(env, b[j - 1], steps[j - 1], tid);
      assert false;
    } else if AcceptedRow(b[j - 1].rows[tid]) {
      k := WasAccepted(env, b, steps, j - 1, tid);
    } else {
      AcceptingStep(env, b[j - 1], steps[j - 1], tid);
      k := j - 1;
      assert AcceptedAt(b, steps, k, tid) by { AcceptedHere(b, steps, k, tid); }
    }
  }

  lemma AcceptedHere(b: seq<Sys>, steps: seq<Step>, k: nat, tid: nat)
    requires k < |steps| && k < |b| && steps[k].CastVote? && steps[k].tid == tid && tid in b[k].rows && tid in b[k].cache
    requires Accepting(b[k].cache[tid], steps[k].device, steps[k].accept)
    ensures AcceptedAt(b, steps, k, tid)
  {
    hide Accepting;
  }

  /** In every run, a task that has been restarted was accepted at least 31 seconds
      for every attempt ago, however the timer's passes and other requests interleave. */
  lemma AttemptsTakeTime(env: Env, b: seq<Sys>, steps: seq<Step>, j: nat, tid: nat)
    requires ValidEnv(env) && Behaviour(env, b, steps) && j < |b| && tid in b[j].rows && b[j].rows[tid].attempts > 0
    ensures exists k | 0 <= k < j :: AcceptedAt(b, steps, k, tid) && 31 * b[j].rows[tid].attempts <= b[j].now - b[k].now
  {
    hide ReplyTo, Inv, Behaviour, AcceptedAt, AcceptedRow, RowInv, TaskInv;
    RunsKeepInv(env, b, steps, j);
    InvParts(env, b[j], tid);
    BegunIsAccepted(env, b[j].groups, b[j].rows[tid]);
    var k := WasAccepted(env, b, steps, j, tid);
    SpacedSince(env, b, steps, k, j, tid);
  }

  // ------------------------------------------------ no restart soon after an update

  lemma UpdateIsNoted(env: Env, s: Sys, step: Step)
    requires Enabled(s, step) && step.Submit? && s.cache[step.tid].RunningPhase?
    ensures var s' := Apply(env, s, step);
            s'.now == s.now && step.tid in s'.lastUpdates && s'.lastUpdates[step.tid] == s.now
  {
    hide UpdateTask, Applies;
  }

  lemma {:induction false} UpdatedSince(env: Env, b: seq<Sys>, steps: seq<Step>, i: nat, j: nat, tid: nat)
    requires Behaviour(env, b, steps) && i < j < |b|
    requires UpdatedAt(b, steps, i, tid)
    ensures b[i].now <= b[j].now && (tid in b[j].lastUpdates ==> b[i].now <= b[j].lastUpdates[tid])
    decreases j
  {
    hide Behaviour, Apply, Enabled;
    StepAt(env, b, steps, j);
    if j == i + 1 {
      UpdateIsNoted(env, b[i], steps[i]);
    } else {
      UpdatedSince(env, b, steps, i, j - 1, tid);
      ClockStep(env, b[j - 1], steps[j - 1], tid);
    }
  }

  /** A task on the timer's list was found stale by the query of the pass. */
  lemma {:induction false} PassFrom(env: Env, b: seq<Sys>, steps: seq<Step>, j: nat, tid: nat) returns (q: nat)
    requires Behaviour(env, b, steps) && j < |b| && tid in b[j].timer.todo
    ensures PassSince(b, steps, q, j) && Enabled(b[q], steps[q])
    ensures Stale(b[q], steps[q].clock, tid) && steps[q].clock <= b[q].now <= b[j].now
    decreases j
  {
    hide Behaviour, Apply, Enabled, StaleOf, Stale;
    BeginsEmpty(env, b, steps);
    if j == 0 {
      assert false;
    } else {
      StepAt(env, b, steps, j);
      PassStep(env, b[j - 1], steps[j - 1]);
      ClockStep(env, b[j - 1], steps[j - 1], tid);
      if steps[j - 1].Query? {
        q := j - 1;
      } else {
        q := PassFrom(env, b, steps, j - 1, tid);
      }
    }
  }

  /** No restart comes within 30 seconds of an update call that found the task running,
      accepted or not, before the query of the timer's pass: already the query lies more
      than 30 seconds after it. */
  lemma NoRestartSoonAfterUpdate(env: Env, b: seq<Sys>, steps: seq<Step>, j: nat, tid: nat) returns (q: nat)
    requires Behaviour(env, b, steps) && RestartedAt(b, steps, j, tid)
    ensures PassSince(b, steps, q, j)
    ensures forall i | 0 <= i < q && UpdatedAt(b, steps, i, tid) ::
              steps[q].clock - b[i].now > 30 && b[j].now - b[i].now > 30
  {
    hide Behaviour, Apply, Enabled;
    q := PassFrom(env, b, steps, j, tid);
    forall i | 0 <= i < q && UpdatedAt(b, steps, i, tid)
      ensures steps[q].clock - b[i].now > 30 && b[j].now - b[i].now > 30
    {
      UpdatedSince(env, b, steps, i, q, tid);
    }
  }

  /** An update after the query does not hold the restart up: whenever a task on top of
      the timer's list is updated and goes on running, the restart may follow at the
      very same time. */
  lemma RestartMayFollowUpdate(env: Env, s: Sys, step: Step, helper: Helper)
    requires Enabled(s, step) && step.Submit? && s.timer.todo != [] && s.timer.todo[0] == step.tid
    requires Apply(env, s, step).cache[step.tid].RunningPhase?
    ensures var s' := Apply(env, s, step);
            && Enabled(s', RestartNext(helper)) && Restarts(s', RestartNext(helper), step.tid) && s'.now == s.now
  {
    hide UpdateTask, Applies;
  }
}
