/** The invariant of one task: rows and cache entry match, except for the requests that
    can be accepted but not be constructed. */
module Invariant {
  import opened Basics
  import opened Shares
  import opened Voting
  import opened Quorum
  import opened Communication
  import opened Rounds
  import opened Store
  import opened Handlers
  import opened Refinement
  import opened Preservation

  /** No device is on record with more active shares than it holds. */
  ghost predicate CountsWithin(row: TaskRow) {
    forall id | id in row.active :: id in row.participants && 0 < row.active[id] <= row.participants[id].shares
  }

  lemma DrawWithinCounts(row: TaskRow, task: Task, activations: map<Bytes, nat>, now: nat, chosen: seq<Device>)
    requires task.VotingPhase? && Listing(row.participants, task.info.participants) && CountsWithin(row)
    requires Cast(task.info.participants, task.decisions) && Accepts(task.decisions) >= task.acceptThreshold
    requires MayDraw(task, activations, now, chosen)
    ensures CountsWithin(StoreActive(row, Tally(chosen)))
  {
    hide Tally, Listing, Cast, Accepts, MayDraw, WithinShares, SharesOf;
    var ps := task.info.participants;
    DrawWithinShares(row, task, activations, now, chosen);
    SharesListed(row.participants, ps);
    CountsListed(row.participants, ps, Tally(chosen));
  }

  lemma DrawWithinShares(row: TaskRow, task: Task, activations: map<Bytes, nat>, now: nat, chosen: seq<Device>)
    requires task.VotingPhase? && Listing(row.participants, task.info.participants)
    requires Cast(task.info.participants, task.decisions) && Accepts(task.decisions) >= task.acceptThreshold
    requires MayDraw(task, activations, now, chosen)
    ensures WithinShares(task.info.participants, Tally(chosen))
  {
    hide Sample, Pool, Cast, Accepts, DistinctIds, ActiveMap, Tally, FirstIndex, Listing, WithinShares;
    ListingDistinct(row.participants, task.info.participants);
    QuorumIsAssigned(task.info.participants, task.decisions, task.acceptThreshold, activations, now, chosen);
  }

  lemma SharesListed(rows: map<Bytes, ParticipantRow>, ps: seq<Participant>)
    requires Listing(rows, ps)
    ensures forall id | id in rows :: SharesOf(ps, id) == rows[id].shares
  {
    hide Listing, SharesOf, MapSum, RowWeights, Weights, TotalShares;
    ListingFacts(rows, ps);
  }

  lemma CountsListed(rows: map<Bytes, ParticipantRow>, ps: seq<Participant>, counts: map<Bytes, nat>)
    requires Listing(rows, ps) && WithinShares(ps, counts)
    ensures forall id | id in counts :: id in rows && 0 < counts[id] <= rows[id].shares
  {
    hide Listing, SharesOf;
    SharesListed(rows, ps);
    forall id | id in counts ensures id in rows {
      ChosenIsListed(rows, ps, id);
    }
  }

  lemma ChosenIsListed(rows: map<Bytes, ParticipantRow>, ps: seq<Participant>, id: Bytes)
    requires Listing(rows, ps) && SharesOf(ps, id) > 0
    ensures id in rows
  {
    if id !in IdSet(ps) {
      SharesOfOutsider(ps, id);
      assert false;
    }
  }

  // ---------------------------------------------- requests that cannot be constructed

  /** The rows tell of a task that has been started: a round is open, or it has ended
      after it was accepted. */
  ghost predicate Launched(row: TaskRow) {
    row.round >= 1 || (row.result.Some? && AcceptedRow(row))
  }

  /** The tasks for which memory and database go together: the sound ones, and those
      that were started all the same. */
  ghost predicate Tracked(row: TaskRow) {
    Sound(row) || Launched(row)
  }

  /** The rows of a request that cannot be constructed, as long as it is not started. */
  ghost predicate UnstartedRow(groups: Groups, row: TaskRow) {
    && RowBase(groups, row) && !Sound(row) && !Launched(row)
    && row.round == 0 && row.attempts == 0 && row.certificatesSent != Some(true)
    && (row.result.None? || (row.result.value.Failure? && DeclinedRow(row)))
  }

  /** The votes in the rows declined the task. */
  ghost predicate DeclinedRow(row: TaskRow) {
    Rejects(StoredVotes(row.participants)) >= RowTotal(row) - AcceptThreshold(row) + 1
  }

  /** A PDF task over its limits that a restarted server takes for a running one: it
      waits, before round 1, for a batch of each device, and is started by the last. */
  ghost predicate Waking(env: Env, groups: Groups, row: TaskRow, run: Run)
    requires RowBase(groups, row)
  {
    && RunOk(env, run) && AcceptedRow(row) && ActiveMatches(row, run) && run.context == ContextOf(groups, row)
    && run.round == 0 && !run.certificatesSent
  }

  /** The cache entry: voting goes on even after the task was accepted, unless the server
      has been restarted since; then the task seems to run. */
  ghost predicate Unstarted(env: Env, groups: Groups, row: TaskRow, task: Task) {
    && UnstartedRow(groups, row)
    && match task
       case VotingPhase(_, _, _, _) =>
         row.result.None? && RowBase(groups, row.(active := map[])) && Voted(groups, row.(active := map[]), task)
       case RunningPhase(run) =>
         && row.result.None? && InfoMatches(row, run.info)
         && if row.kind.GroupTask? then run.round == 0 && !run.certificatesSent && DeviceClosed(run.comm)
            else Waking(env, groups, row, run)
       case DeclinedPhase(info, a, r) =>
         && row.result.Some? && InfoMatches(row, info)
         && a == Accepts(StoredVotes(row.participants)) && r == Rejects(StoredVotes(row.participants))
       case _ => false
  }

  ghost predicate TaskInv(env: Env, groups: Groups, row: TaskRow, task: Task) {
    CountsWithin(row) && if Tracked(row) then Matches(env, groups, row, task) else Unstarted(env, groups, row, task)
  }

  /** What the rows satisfy on their own, cached or not. */
  ghost predicate RowInv(env: Env, groups: Groups, row: TaskRow) {
    && CountsWithin(row)
    && if Tracked(row) then exists task :: Matches(env, groups, row, task) else UnstartedRow(groups, row)
  }

  lemma TaskInvRow(env: Env, groups: Groups, row: TaskRow, task: Task)
    requires TaskInv(env, groups, row, task)
    ensures RowInv(env, groups, row) && RowBase(groups, row)
  {
    hide Tracked, RowBase, VotingMatches, RunningMatches, FinishedMatches, CountsWithin;
  }

  /** Only group tasks and PDF tasks may be impossible to construct. */
  lemma UnsoundKinds(row: TaskRow)
    requires !Sound(row)
    ensures row.kind.GroupTask? || row.kind.PdfTask?
    ensures !Constructible(row) && Acceptable(row)
  {
  }

  lemma UnstartedParts(env: Env, groups: Groups, row: TaskRow, task: Task)
    requires Unstarted(env, groups, row, task)
    ensures UnstartedRow(groups, row) && !task.FinishedPhase? && !task.FailedPhase? && !Sound(row) && !Launched(row)
    ensures RowBase(groups, row)
  {
    hide RowBase, Sound, Rejects, Waking, Voted;
  }

  /** Nobody can construct such a request. */
  lemma NeverCreated(groups: Groups, row: TaskRow, task: Task, active: map<nat, Device>)
    requires task.VotingPhase? && RowBase(groups, row) && Voted(groups, row, task) && !Constructible(row)
    ensures CreateRun(task, active).None?
  {
    hide Listing, Cast, SameVotes, RowKeys, SortById, TotalShares, RowTotal, NewComm, WithinPdfLimits;
    InfosAgree(row, task.info, task.info.participants);
  }

  lemma ActiveIrrelevant(groups: Groups, row: TaskRow, active: map<Bytes, nat>)
    requires RowBase(groups, row)
    ensures var row' := row.(active := active);
            RowBase(groups, row') && (Sound(row') <==> Sound(row)) && (AcceptedRow(row') <==> AcceptedRow(row))
            && AcceptThreshold(row') == AcceptThreshold(row) && RowTotal(row') == RowTotal(row)
            && (Constructible(row') <==> Constructible(row))
  {
    StandingKeeps(groups, row, row.(active := active));
  }

  lemma SettleUnstarted(env: Env, groups: Groups, row: TaskRow, task: Task,
                        activations: map<Bytes, nat>, now: nat, chosen: seq<Device>, helper: Helper)
    requires task.VotingPhase? && Unstarted(env, groups, row, task) && MayDraw(task, activations, now, chosen)
    requires CountsWithin(row)
    ensures var (slot', reply) := Settle(row, task, chosen, helper);
            && Unstarted(env, groups, slot'.row, slot'.task) && CountsWithin(slot'.row)
            && reply != Impossible
            && slot'.row.participants == row.participants && (slot'.task == task || slot'.task.DeclinedPhase?)
  {
    hide Listing, Cast, SameVotes, RowBase, ContextOf, Accepts, Rejects, Sound, StoredVotes, CreateRun, StartRun,
         Tally, ActiveMap, TotalShares, RowTotal, CountsWithin, MayDraw, Waking, Constructible;
    var bare := row.(active := map[]);
    UnsoundKinds(row);
    ActiveIrrelevant(groups, row, map[]);
    InfosAgree(bare, task.info, task.info.participants);
    SameVotesTally(task.decisions, row.participants);
    match Verdict(task.decisions, TotalShares(task.info.participants), task.acceptThreshold)
    case Undecided =>
    case Declined(a, r) =>
      var row' := row.(result := Some(Failure("Task declined")));
      StandingKeeps(groups, row, row');
      CountsStay(row, row');
    case Accepted =>
      NeverCreated(groups, bare, task, ActiveMap(task.info.participants, Tally(chosen)));
      var row' := StoreActive(row, Tally(chosen));
      ActiveIrrelevant(groups, row, row'.active);
      DrawWithinCounts(row, task, activations, now, chosen);
      assert row'.(active := map[]) == bare;
  }

  lemma CountsStay(row: TaskRow, row': TaskRow)
    requires CountsWithin(row) && row'.active == row.active
        && RowWeights(row'.participants) == RowWeights(row.participants)
    ensures CountsWithin(row')
  {
    forall id | id in row.active ensures id in row'.participants
        && row'.participants[id].shares == row.participants[id].shares {
      assert id in RowWeights(row.participants);
      assert RowWeights(row'.participants)[id] == RowWeights(row.participants)[id];
    }
  }

  lemma DecideUnstarted(env: Env, groups: Groups, slot: Slot, id: Bytes, accept: bool,
                        activations: map<Bytes, nat>, now: nat, chosen: seq<Device>, helper: Helper)
    requires Unstarted(env, groups, slot.row, slot.task) && CountsWithin(slot.row)
    requires Draws(slot, id, accept, activations, now, chosen)
    ensures var (slot', reply) := Decide(slot, id, accept, chosen, helper);
            && Unstarted(env, groups, slot'.row, slot'.task) && CountsWithin(slot'.row)
            && reply != Impossible
            && (slot.task.VotingPhase? && id in IdSet(slot.task.info.participants) ==>
                  && slot'.row.participants == StoreDecision(slot.row, id, accept).participants
                  && (slot'.task.VotingPhase? || slot'.task.DeclinedPhase?))
  {
    hide Listing, Cast, SameVotes, RowBase, ContextOf, Sound, Settle, StoreDecision, Rejects, StoredVotes, Decided,
         CountsWithin, MayDraw, RowWeights, AcceptedRow, Waking;
    if slot.task.VotingPhase? && id in IdSet(slot.task.info.participants) {
      var bare := slot.row.(active := map[]);
      VoteIsRecorded(groups, Slot(bare, slot.task), id, accept);
      DecisionKeepsRow(groups, slot.row, id, accept);
      StoreDecisionBare(slot.row, id, accept);
      StoreDecisionKeeps(slot.row, id, accept);
      CountsStay(slot.row, StoreDecision(slot.row, id, accept));
      SettleUnstarted(env, groups, StoreDecision(slot.row, id, accept), WithVote(slot.task, id, accept), activations, now,
                      chosen, helper);
    }
  }

  lemma StoreDecisionBare(row: TaskRow, id: Bytes, accept: bool)
    ensures StoreDecision(row.(active := map[]), id, accept) == StoreDecision(row, id, accept).(active := map[])
  {
  }

  /** A group request that was never constructed cannot be updated: its certificates were
      not sent. */
  lemma UpdateUnstartedGroup(env: Env, groups: Groups, slot: Slot, device: Bytes, msgs: seq<ClientMessage>,
                             attempt: nat, order: seq<nat>, helper: Helper)
    requires Unstarted(env, groups, slot.row, slot.task) && slot.row.kind.GroupTask?
    requires Applies(slot.task, device, msgs, order)
    ensures var (slot', groups', reply) := UpdateTask(env, groups, slot, device, msgs, attempt, order, helper);
            slot' == slot && groups' == groups && (reply == Rejected || reply == Crashed)
  {
    hide Listing, Cast, SameVotes, RowBase, ContextOf, Rejects, StoredVotes, DeviceClosed, Enumerates, WaitingFor,
         Receives, RoundReceived, NextStep, Gathered, Sound, AcceptedRow, Waking;
  }

  /** An update of a PDF task that seems to run before its first round: it gathers, or
      the last batch starts it, and then rows and entry match. */
  lemma UpdateWaking(env: Env, groups: Groups, slot: Slot, device: Bytes, msgs: seq<ClientMessage>,
                     attempt: nat, order: seq<nat>, helper: Helper)
    requires ValidEnv(env) && Unstarted(env, groups, slot.row, slot.task) && !slot.row.kind.GroupTask?
    requires Applies(slot.task, device, msgs, order)
    ensures var (slot', groups', reply) := UpdateTask(env, groups, slot, device, msgs, attempt, order, helper);
            && groups' == groups && reply != Impossible && SameStanding(slot.row, slot'.row)
            && slot'.row.active == slot.row.active
            && (if Launched(slot'.row) then Matches(env, groups, slot'.row, slot'.task)
                else slot'.row == slot.row && Unstarted(env, groups, slot'.row, slot'.task))
  {
    hide Matches, RunOk, RowBase, Update, Applies, AcceptedRow, ActiveMatches, ContextOf, FinalMishap, AfterReceiving,
         Enumerates, DeviceClosed, Sound, InfoMatches, Voted, WaitingFor, Receives;
    if slot.task.RunningPhase? && attempt == slot.task.run.info.attempts {
      var row, run := slot.row, slot.task.run;
      AppliesParts(run, device, msgs, order);
      UpdateOk(env, run, device, msgs, order, helper);
      var (run', u) := Update(env, run, device, msgs, order, helper);
      MishapRound(env, run, device, msgs, order, helper);
      match u
      case NextRound(r) => WakingStarts(env, groups, row, run, run');
      case Failed(reason) => WakingFails(env, groups, row, run, run', reason);
      case _ =>
        if run' != run { WakingCarries(env, groups, row, run, run'); }
    }
  }

  /** What starts such a task is the batch that completes its inbox, and nothing else. */
  lemma WakesIff(env: Env, groups: Groups, slot: Slot, device: Bytes, msgs: seq<ClientMessage>,
                 order: seq<nat>, helper: Helper)
    requires ValidEnv(env) && Unstarted(env, groups, slot.row, slot.task) && !slot.row.kind.GroupTask?
    requires slot.task.RunningPhase? && Applies(slot.task, device, msgs, order)
    ensures var run := slot.task.run;
            Launched(UpdateTask(env, groups, slot, device, msgs, run.info.attempts, order, helper).0.row) <==>
              && WaitingFor(run.comm, device) && !Receives(run.comm, device, msgs).Misshapen?
              && RoundReceived(AfterReceiving(run, device, msgs).comm)
  {
    hide Matches, RowBase, Update, Applies, ActiveMatches, ContextOf, FinalMishap, AfterReceiving, Enumerates,
         DeviceClosed, Sound, Voted, WaitingFor, Receives, RoundReceived, RunOk, StoredVotes, Listing, MapSum,
         RowWeights, Accepts;
    var run := slot.task.run;
    AppliesParts(run, device, msgs, order);
    WakingStep(env, run, device, msgs, order, helper);
  }

  lemma WakingStep(env: Env, run: Run, device: Bytes, msgs: seq<ClientMessage>, order: seq<nat>, helper: Helper)
    requires ValidEnv(env) && RunOk(env, run) && run.round == 0 && !run.info.kind.GroupTask?
    requires Enumerates(order, AfterReceiving(run, device, msgs).comm.input.Keys)
    ensures var u := Update(env, run, device, msgs, order, helper).1;
            && (u == Listen || u == NextRound(1) || u.Failed? || u == Refused || u == Panicked)
            && (u == NextRound(1) || u.Failed? <==>
                  && WaitingFor(run.comm, device) && !Receives(run.comm, device, msgs).Misshapen?
                  && RoundReceived(AfterReceiving(run, device, msgs).comm))
  {
    hide Enumerates, DeviceClosed, WaitingFor, Receives, RoundReceived, Started, Gathered;
    GatheringKeepsTask(run, device, msgs);
  }

  lemma MishapRound(env: Env, run: Run, device: Bytes, msgs: seq<ClientMessage>, order: seq<nat>, helper: Helper)
    requires DeviceClosed(run.comm) && Enumerates(order, AfterReceiving(run, device, msgs).comm.input.Keys)
    ensures DeviceClosed(AfterReceiving(run, device, msgs).comm)
    ensures FinalMishap(env, AfterReceiving(run, device, msgs), order, helper) ==> run.round == LastRound(env, run)
  {
    hide DeviceClosed, Enumerates, FinalFrom;
    ReceivingKeepsClosed(run, device, msgs);
    GatheringKeepsTask(run, device, msgs);
  }

  lemma WakingCarries(env: Env, groups: Groups, row: TaskRow, run: Run, run': Run)
    requires RowBase(groups, row) && InfoMatches(row, run.info) && Waking(env, groups, row, run)
    requires RunOk(env, run') && SameTask(run, run') && run'.info == run.info && run'.round == 0
    requires run'.certificatesSent == run.certificatesSent
    ensures InfoMatches(row, run'.info) && Waking(env, groups, row, run')
  {
    hide RowBase, RunOk, AcceptedRow, ContextOf, Listing, WithinShares, ActiveMap, Sound, AcceptThreshold;
  }

  lemma WakingStarts(env: Env, groups: Groups, row: TaskRow, run: Run, run': Run)
    requires RowBase(groups, row) && InfoMatches(row, run.info) && Waking(env, groups, row, run) && !row.kind.GroupTask?
    requires RunOk(env, run') && SameTask(run, run') && run'.info == run.info && run'.round == 1
    requires run'.certificatesSent == run.certificatesSent && row.result.None?
    ensures Matches(env, groups, row.(round := 1), RunningPhase(run'))
  {
    hide RowBase, RunOk, AcceptedRow, ContextOf, Listing, WithinShares, ActiveMap, Sound, AcceptThreshold;
    StandingKeeps(groups, row, row.(round := 1));
  }

  lemma WakingFails(env: Env, groups: Groups, row: TaskRow, run: Run, run': Run, reason: string)
    requires RowBase(groups, row) && InfoMatches(row, run.info) && Waking(env, groups, row, run)
    requires SameTask(run, run') && run'.info == run.info && row.result.None?
    ensures Matches(env, groups, row.(result := Some(Failure(reason))), FailedPhase(run'.info, reason))
    ensures AcceptedRow(row.(result := Some(Failure(reason))))
  {
    hide RowBase, RunOk, AcceptedRow, ContextOf, Listing, ActiveMatches;
    StandingKeeps(groups, row, row.(result := Some(Failure(reason))));
  }

  /** Whatever a server restart makes of such a request, rebuilding does not start it. */
  lemma RebuiltUnstarted(env: Env, groups: Groups, row: TaskRow, ps: seq<Participant>)
    requires ValidEnv(env) && UnstartedRow(groups, row) && CountsWithin(row) && Listing(row.participants, ps)
    requires Rebuild(groups, row, ps).Some?
    ensures Unstarted(env, groups, row, Rebuild(groups, row, ps).value)
  {
    hide Listing, Cast, Accepts, Rejects, RowKeys, TotalShares, ActiveMap, StoredVotes, SameVotes, DeviceClosed,
         RebuildRun, Waking, Sound, CountsWithin, GroupOk, StoredAcks, RowTotal;
    UnsoundKinds(row);
    ActiveIrrelevant(groups, row, map[]);
    var task := Rebuild(groups, row, ps).value;
    InfosAgree(row, InfoOf(row, ps), ps);
    if task.VotingPhase? {
      StoredVotesCast(row.participants, ps);
      assert SameVotes(StoredVotes(row.participants), row.participants) by { StoredSame(row.participants); }
    } else if task.RunningPhase? {
      RebuiltRunParts(row, ps, ContextOf(groups, row), task.run);
      EmptyInboxIsClosed(task.run.comm);
      if !row.kind.GroupTask? {
        RebuiltWakes(env, groups, row, ps, task.run);
      }
    }
  }

  lemma RebuiltRunParts(row: TaskRow, ps: seq<Participant>, context: Context, run: Run)
    requires RebuildRun(row, ps, context) == Some(run)
    ensures run.info == InfoOf(row, ps) && run.context == context && run.comm.input == map[]
    ensures run.certificatesSent == (row.certificatesSent == Some(true)) && run.round == row.round
  {
    hide ActiveMap, TotalShares;
  }

  lemma RebuiltWakes(env: Env, groups: Groups, row: TaskRow, ps: seq<Participant>, run: Run)
    requires ValidEnv(env) && UnstartedRow(groups, row) && CountsWithin(row) && Listing(row.participants, ps)
    requires !row.kind.GroupTask? && AcceptedRow(row) && row.result.None?
    requires RebuildRun(row, ps, ContextOf(groups, row)) == Some(run)
    ensures Waking(env, groups, row, run)
  {
    hide Listing, Accepts, Rejects, RowKeys, TotalShares, ActiveMap, StoredVotes, DeviceClosed, StoredAcks, MapSum,
         AcceptedRow;
    assert WithinShares(ps, row.active) by { CountsWithinShares(row, ps); }
    hide WithinShares, CountsWithin, Sound;
    EmptyInboxIsClosed(run.comm);
  }

  lemma CountsWithinShares(row: TaskRow, ps: seq<Participant>)
    requires CountsWithin(row) && Listing(row.participants, ps)
    ensures WithinShares(ps, row.active)
  {
    ListingFacts(row.participants, ps);
  }

  lemma StoredSame(rows: map<Bytes, ParticipantRow>)
    ensures SameVotes(StoredVotes(rows), rows)
  {
  }

  lemma NewIsUnstarted(env: Env, groups: Groups, slot: Slot)
    requires Matches(env, groups, slot.row, slot.task) && slot.task.VotingPhase? && !Sound(slot.row)
    ensures Unstarted(env, groups, slot.row, slot.task) && !Tracked(slot.row)
  {
    hide Listing, Cast, SameVotes, Accepts, Rejects, RowKeys, RowTotal, StoredAcks, Sound, AcceptedRow, ContextOf,
         RowBase;
    assert slot.row.(active := map[]) == slot.row;
  }

  // ------------------------------------------------------------- all requests

  lemma SettleCounts(row: TaskRow, task: Task, activations: map<Bytes, nat>, now: nat, chosen: seq<Device>,
                     helper: Helper)
    requires task.VotingPhase? && Listing(row.participants, task.info.participants) && CountsWithin(row)
    requires Cast(task.info.participants, task.decisions) && MayDraw(task, activations, now, chosen)
    ensures CountsWithin(Settle(row, task, chosen, helper).0.row)
    ensures Settle(row, task, chosen, helper).0.row.participants == row.participants
  {
    hide Listing, Cast, Accepts, Rejects, CreateRun, Initialize, Tally, ActiveMap, TotalShares, CountsWithin, MayDraw,
         StoreActive;
    var row' := Settle(row, task, chosen, helper).0.row;
    if Accepts(task.decisions) >= task.acceptThreshold {
      DrawWithinCounts(row, task, activations, now, chosen);
      StoreActiveShape(row, Tally(chosen));
      CountsStay(StoreActive(row, Tally(chosen)), row');
    } else {
      CountsStay(row, row');
    }
  }

  lemma StoreActiveShape(row: TaskRow, counts: map<Bytes, nat>)
    ensures StoreActive(row, counts) == row.(active := StoreActive(row, counts).active)
  {
  }

  lemma DecideCounts(groups: Groups, slot: Slot, id: Bytes, accept: bool,
                     activations: map<Bytes, nat>, now: nat, chosen: seq<Device>, helper: Helper)
    requires slot.task.VotingPhase? ==> RowBase(groups, slot.row) && Voted(groups, slot.row, slot.task)
    requires CountsWithin(slot.row) && Draws(slot, id, accept, activations, now, chosen)
    ensures CountsWithin(Decide(slot, id, accept, chosen, helper).0.row)
  {
    hide Listing, Cast, SameVotes, RowBase, ContextOf, Settle, StoreDecision, Decided, CountsWithin, MayDraw,
         RowWeights;
    if slot.task.VotingPhase? && id in IdSet(slot.task.info.participants) {
      VoteIsRecorded(groups, slot, id, accept);
      StoreDecisionKeeps(slot.row, id, accept);
      CountsStay(slot.row, StoreDecision(slot.row, id, accept));
      SettleCounts(StoreDecision(slot.row, id, accept), WithVote(slot.task, id, accept), activations, now, chosen,
                   helper);
    }
  }

  lemma VotingIsVoted(env: Env, groups: Groups, row: TaskRow, task: Task)
    requires Matches(env, groups, row, task) && task.VotingPhase?
    ensures RowBase(groups, row) && Voted(groups, row, task) && !Launched(row)
  {
    hide RowBase, Voted, AcceptedRow;
    assert Voted(groups, row, task);
    VotedIsOpen(groups, row, task);
  }

  lemma VotedIsOpen(groups: Groups, row: TaskRow, task: Task)
    requires task.VotingPhase? && RowBase(groups, row) && Voted(groups, row, task)
    ensures row.round == 0 && row.result.None? && row.attempts == 0
  {
    hide RowBase, Listing, Cast, SameVotes, ContextOf;
  }

  /** A vote keeps the invariant. */
  lemma DecideKeeps(env: Env, groups: Groups, slot: Slot, id: Bytes, accept: bool,
                    activations: map<Bytes, nat>, now: nat, chosen: seq<Device>, helper: Helper)
    requires ValidEnv(env) && TaskInv(env, groups, slot.row, slot.task)
    requires Draws(slot, id, accept, activations, now, chosen)
    ensures var (slot', reply) := Decide(slot, id, accept, chosen, helper);
            && TaskInv(env, groups, slot'.row, slot'.task) && reply != Impossible
  {
    hide Matches, Unstarted, Sound, Settle, Draws, CountsWithin, Launched, IdSet, StoreDecision;
    if !slot.task.VotingPhase? {
    } else if Tracked(slot.row) {
      VotingIsVoted(env, groups, slot.row, slot.task);
      DecideKeepsMatches(env, groups, slot, id, accept, activations, now, chosen, helper);
      DecideCounts(groups, slot, id, accept, activations, now, chosen, helper);
    } else {
      DecideUnstarted(env, groups, slot, id, accept, activations, now, chosen, helper);
      var slot' := Decide(slot, id, accept, chosen, helper).0;
      UnstartedParts(env, groups, slot'.row, slot'.task);
    }
  }

  /** An update keeps the invariant and adds at most one, usable group. */
  lemma UpdateKeeps(env: Env, groups: Groups, slot: Slot, device: Bytes, msgs: seq<ClientMessage>,
                    attempt: nat, order: seq<nat>, helper: Helper)
    requires ValidEnv(env) && TaskInv(env, groups, slot.row, slot.task) && Applies(slot.task, device, msgs, order)
    ensures var (slot', groups', reply) := UpdateTask(env, groups, slot, device, msgs, attempt, order, helper);
            && TaskInv(env, groups', slot'.row, slot'.task) && SameStanding(slot.row, slot'.row)
            && Extends(groups, groups') && (forall id | id in groups' && id !in groups :: GroupOk(groups'[id]))
            && reply != Impossible
  {
    hide Matches, Unstarted, Sound, UpdateTask, GroupOk, Applies, CountsWithin, Launched;
    var (slot', groups', reply) := UpdateTask(env, groups, slot, device, msgs, attempt, order, helper);
    UpdateKeepsActive(env, groups, slot, device, msgs, attempt, order, helper);
    if Tracked(slot.row) {
      UpdateKeepsMatches(env, groups, slot, device, msgs, attempt, order, helper);
      TrackedStanding(slot.row, slot'.row);
    } else if slot.row.kind.GroupTask? {
      UpdateUnstartedGroup(env, groups, slot, device, msgs, attempt, order, helper);
    } else {
      UpdateWaking(env, groups, slot, device, msgs, attempt, order, helper);
      SoundStanding(slot.row, slot'.row);
    }
    CountsStay(slot.row, slot'.row);
  }

  lemma UpdateKeepsActive(env: Env, groups: Groups, slot: Slot, device: Bytes, msgs: seq<ClientMessage>,
                          attempt: nat, order: seq<nat>, helper: Helper)
    requires Applies(slot.task, device, msgs, order)
    ensures var row' := UpdateTask(env, groups, slot, device, msgs, attempt, order, helper).0.row;
            row'.active == slot.row.active && row'.participants == slot.row.participants
  {
    hide Update, Applies, NewGroup;
  }

  lemma SoundStanding(row: TaskRow, row': TaskRow)
    requires SameStanding(row, row')
    ensures Sound(row') <==> Sound(row)
  {
  }

  lemma TrackedStanding(row: TaskRow, row': TaskRow)
    requires SameStanding(row, row') && Tracked(row)
    ensures Tracked(row')
  {
    hide Sound, MapSum, StoredVotes;
    SoundStanding(row, row');
  }

  /** The restart query finds exactly the running tasks. */
  lemma CandidateIffRunning(env: Env, groups: Groups, row: TaskRow, task: Task)
    requires ValidEnv(env) && Matches(env, groups, row, task)
    ensures RestartCandidate(row) <==> task.RunningPhase?
  {
    hide Listing, DeviceClosed, RoundReceived, ActiveMatches, AcceptedRow, Startable, Cast, SameVotes, RowKeys,
         ContextOf, Accepts, Rejects;
  }

  lemma UnstartedIsNoCandidate(groups: Groups, row: TaskRow)
    requires UnstartedRow(groups, row)
    ensures !RestartCandidate(row)
  {
    hide RowBase, Sound, Launched;
  }

  /** A candidate is tracked, and runs if it is cached. */
  lemma CandidateIsTracked(env: Env, groups: Groups, row: TaskRow, task: Task)
    requires ValidEnv(env) && TaskInv(env, groups, row, task)
    ensures RestartCandidate(row) ==> Tracked(row) && task.RunningPhase?
    ensures Tracked(row) ==> (RestartCandidate(row) <==> task.RunningPhase?)
  {
    hide Matches, Unstarted, Tracked, RestartCandidate, CountsWithin;
    if Tracked(row) {
      CandidateIffRunning(env, groups, row, task);
    } else {
      UnstartedParts(env, groups, row, task);
      UnstartedIsNoCandidate(groups, row);
    }
  }

  lemma RestartKeeps(env: Env, groups: Groups, slot: Slot, helper: Helper)
    requires ValidEnv(env) && TaskInv(env, groups, slot.row, slot.task) && RestartCandidate(slot.row)
    ensures var (slot', reply) := RestartTask(slot, helper);
            && TaskInv(env, groups, slot'.row, slot'.task) && SameStanding(slot.row, slot'.row) && reply == Done
  {
    hide Matches, Unstarted, Tracked, Restart, RestartCandidate, CountsWithin;
    CandidateIsTracked(env, groups, slot.row, slot.task);
    RestartKeepsMatches(env, groups, slot, helper);
    TrackedStanding(slot.row, RestartTask(slot, helper).0.row);
    CountsStay(slot.row, RestartTask(slot, helper).0.row);
  }

  lemma AcknowledgeKeeps(env: Env, groups: Groups, slot: Slot, id: Bytes)
    requires TaskInv(env, groups, slot.row, slot.task)
    ensures var (slot', reply) := Acknowledge(slot, id);
            && TaskInv(env, groups, slot'.row, slot'.task) && (reply == Done || reply == Rejected)
  {
    hide Matches, Unstarted, Sound, StoreAck, CountsWithin, Launched, RowWeights;
    StoreAckKeeps(slot.row, id);
    CountsStay(slot.row, StoreAck(slot.row, id));
    if !slot.task.FinishedPhase? {
    } else if Tracked(slot.row) {
      AcknowledgeKeepsMatches(env, groups, slot, id);
      AckKeepsStarted(slot.row, StoreAck(slot.row, id));
    } else {
      UnstartedParts(env, groups, slot.row, slot.task);
    }
  }

  lemma AckKeepsStarted(row: TaskRow, row': TaskRow)
    requires row' == row.(participants := row'.participants)
    requires StoredVotes(row'.participants) == StoredVotes(row.participants)
    requires RowWeights(row'.participants) == RowWeights(row.participants)
    ensures Launched(row') <==> Launched(row)
  {
    hide MapSum, StoredVotes, RowWeights;
  }

  /** A cache entry rebuilt from the rows satisfies the invariant again. */
  lemma RebuildKeeps(env: Env, groups: Groups, row: TaskRow, ps: seq<Participant>)
    requires ValidEnv(env) && RowInv(env, groups, row) && Listing(row.participants, ps)
    ensures Tracked(row) ==> Rebuild(groups, row, ps).Some?
    ensures Rebuild(groups, row, ps).Some? ==> TaskInv(env, groups, row, Rebuild(groups, row, ps).value)
  {
    hide Listing, Matches, Unstarted, UnstartedRow, Rebuild, Tracked, CountsWithin;
    if Tracked(row) {
      var task :| Matches(env, groups, row, task);
      RebuiltMatches(env, groups, row, task, ps);
    } else if Rebuild(groups, row, ps).Some? {
      RebuiltUnstarted(env, groups, row, ps);
    }
  }

  lemma UnstartedRowExtends(groups: Groups, groups': Groups, row: TaskRow)
    requires UnstartedRow(groups, row) && Extends(groups, groups')
    ensures UnstartedRow(groups', row)
  {
    hide RowBase, Sound, Launched, DeclinedRow;
    RowBaseExtends(groups, groups', row);
  }

  lemma ContextExtends(groups: Groups, groups': Groups, row: TaskRow)
    requires RowBase(groups, row) && Extends(groups, groups')
    ensures RowBase(groups', row) && ContextOf(groups', row) == ContextOf(groups, row)
  {
    RowBaseExtends(groups, groups', row);
    hide RowKeys, RowTotal, StoredAcks, GroupOk, GroupOf, People;
  }

  /** New groups disturb nobody. */
  lemma TaskInvExtends(env: Env, groups: Groups, groups': Groups, row: TaskRow, task: Task)
    requires TaskInv(env, groups, row, task) && Extends(groups, groups')
    ensures TaskInv(env, groups', row, task)
  {
    hide Matches, RowBase, ContextOf, UnstartedRow, InfoMatches, Cast, SameVotes, Accepts, Rejects, StoredVotes,
         DeviceClosed, Extends, Tracked, CountsWithin, RunOk, ActiveMatches, AcceptedRow;
    if Tracked(row) {
      MatchesExtends(env, groups, groups', row, task);
    } else {
      UnstartedParts(env, groups, row, task);
      UnstartedRowExtends(groups, groups', row);
      ContextExtends(groups, groups', row);
      if task.VotingPhase? { ContextExtends(groups, groups', row.(active := map[])); }
    }
  }

  lemma RowInvExtends(env: Env, groups: Groups, groups': Groups, row: TaskRow)
    requires RowInv(env, groups, row) && Extends(groups, groups')
    ensures RowInv(env, groups', row)
  {
    hide Matches, UnstartedRow, Extends, Tracked, CountsWithin;
    if Tracked(row) {
      var task :| Matches(env, groups, row, task);
      MatchesExtends(env, groups, groups', row, task);
    } else {
      UnstartedRowExtends(groups, groups', row);
    }
  }
}
