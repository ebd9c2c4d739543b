/** What the votes make of a task in every run. */
module Ballots {
  import opened Basics
  import opened Shares
  import opened Voting
  import opened Rounds
  import opened Communication
  import opened Store
  import opened Handlers
  import opened Refinement
  import opened Preservation
  import opened Invariant
  import opened System
  import opened Runs
  import opened Timer
  import opened Requests
  import SharesOnRecord

  // ---------------------------------------------------------------------- the votes

  /** What a participant's vote weighs: its shares, cast to a signed byte. */
  function Weight(r: ParticipantRow): int {
    match r.decision
    case None => 0
    case Some(true) => (128 + r.shares) % 256 - 128
    case Some(false) => (128 - r.shares) % 256 - 128
  }

  ghost function Ayes(rows: map<Bytes, ParticipantRow>): nat {
    MapSum(map id | id in rows && Weight(rows[id]) > 0 :: Weight(rows[id]))
  }

  ghost function Noes(rows: map<Bytes, ParticipantRow>): nat {
    MapSum(map id | id in rows && Weight(rows[id]) < 0 :: -Weight(rows[id]))
  }

  lemma WeightIs(r: ParticipantRow)
    ensures Weight(r) == RowVote(r)
  {
  }

  lemma VotesWeigh(rows: map<Bytes, ParticipantRow>)
    ensures Ayes(rows) == Accepts(StoredVotes(rows)) && Noes(rows) == Rejects(StoredVotes(rows))
  {
    hide Weight, RowVote, MapSum;
    forall id | id in rows ensures Weight(rows[id]) == RowVote(rows[id]) { WeightIs(rows[id]); }
    assert Positive(StoredVotes(rows)) == map id | id in rows && Weight(rows[id]) > 0 :: Weight(rows[id]);
    assert Negative(StoredVotes(rows)) == map id | id in rows && Weight(rows[id]) < 0 :: -Weight(rows[id]);
  }

  /** The requests the server can make a running task of. */
  ghost predicate Makeable(row: TaskRow) {
    var total := MapSum(map id | id in row.participants :: row.participants[id].shares);
    match row.kind
    case GroupTask =>
      && (row.protocol, row.keyType)
         in {(Gg18, PdfKey), (Gg18, ChallengeKey), (Frost, ChallengeKey), (Musig2, ChallengeKey), (ElGamal, DecryptKey)}
      && 2 <= row.threshold <= total && (row.protocol == Musig2 ==> row.threshold == total)
    case PdfTask =>
      && row.data.Some? && |row.data.value| <= 8388608 && |Encoded(row.name)| <= 256
      && forall c | c in row.name :: 0x20 <= c as int < 0x7f || c as int >= 0xa0
    case _ => true
  }

  lemma MakeableIff(row: TaskRow)
    ensures Makeable(row) <==> Constructible(row)
  {
    hide MapSum, Utf8Length, Encoded;
    Utf8LengthIs(row.name);
  }

  lemma VotedTallies(groups: Groups, row: TaskRow, task: Task)
    requires task.VotingPhase? && RowBase(groups, row) && Voted(groups, row, task)
    ensures TotalShares(task.info.participants) == RowTotal(row) && task.acceptThreshold == Needed(row)
    ensures Accepts(task.decisions) == Ayes(row.participants) && Rejects(task.decisions) == Noes(row.participants)
    ensures Accepts(task.decisions) + Rejects(task.decisions) <= RowTotal(row)
    ensures Accepts(task.decisions) >= task.acceptThreshold ==> Acceptable(row)
  {
    hide Listing, Cast, Accepts, Rejects, Acceptable, Ayes, Noes, RowTotal, Needed, StoredVotes, TotalShares,
         SameVotes;
    InfosAgree(row, task.info, task.info.participants);
    SameVotesTally(task.decisions, row.participants);
    VotesWeigh(row.participants);
    assert task.acceptThreshold == Needed(row) by { ContextFollows(groups, row); }
    assert DistinctIds(task.info.participants) by { ListingDistinct(row.participants, task.info.participants); }
    TallyBound(task.info.participants, task.decisions);
    if Accepts(task.decisions) >= task.acceptThreshold {
      AcceptedIsAcceptable(row, task.info.participants, task.decisions);
    }
  }

  lemma SettleFollows(row: TaskRow, task: Task, chosen: seq<Device>, helper: Helper)
    requires task.VotingPhase?
    ensures var task' := Settle(row, task, chosen, helper).0.task;
            var total, yes, no := TotalShares(task.info.participants), Accepts(task.decisions), Rejects(task.decisions);
            && !task'.FinishedPhase?
            && (task'.RunningPhase? || task'.FailedPhase? ==> yes >= task.acceptThreshold)
            && (yes < task.acceptThreshold ==> (task'.DeclinedPhase? <==> no > total - task.acceptThreshold))
            && (yes >= task.acceptThreshold ==> !task'.DeclinedPhase?)
            && (task'.DeclinedPhase? ==>
                  && task'.accepts == yes && task'.rejects == no
                  && Settle(row, task, chosen, helper).0.row.result == Some(Failure("Task declined")))
            && (task'.VotingPhase? ==> task' == task)
  {
    hide TotalShares, Accepts, Rejects, CreateRun, Initialize, ActiveMap, Tally, StoreActive, Unmade;
  }

  /** Two rows of the same request. */
  ghost predicate AlikeRows(row: TaskRow, row': TaskRow) {
    && row'.kind == row.kind && row'.name == row.name && row'.protocol == row.protocol && row'.keyType == row.keyType
    && row'.threshold == row.threshold && row'.data == row.data
    && RowWeights(row'.participants) == RowWeights(row.participants)
  }

  lemma AlikeIsAlike(row: TaskRow, row': TaskRow)
    requires AlikeRows(row, row')
    ensures (Sound(row') <==> Sound(row)) && (Acceptable(row') <==> Acceptable(row))
    ensures (Makeable(row') <==> Makeable(row)) && Needed(row') == Needed(row) && RowTotal(row') == RowTotal(row)
  {
    hide RowWeights, MapSum, Utf8Length, Makeable, BestVotes;
    MakeableIff(row);
    MakeableIff(row');
    WeightsAre(row);
    WeightsAre(row');
  }

  lemma WeightsAre(row: TaskRow)
    ensures RowWeights(row.participants) == map id | id in row.participants :: row.participants[id].shares
  {
  }

  lemma SettleKeepsRow(row: TaskRow, task: Task, chosen: seq<Device>, helper: Helper)
    requires task.VotingPhase?
    ensures var row' := Settle(row, task, chosen, helper).0.row;
            && AlikeRows(row, row') && row'.participants == row.participants
  {
    hide TotalShares, Accepts, Rejects, CreateRun, Initialize, ActiveMap, Tally, RowWeights;
  }

  /** The vote is on record, and nobody else's changes. */
  ghost predicate Recorded(rows: map<Bytes, ParticipantRow>, id: Bytes, accept: bool, rows': map<Bytes, ParticipantRow>) {
    id in rows && rows' == rows[id := rows[id].(decision := Some(accept))]
  }

  /** The phase a task is in after a vote, by the votes on record. */
  ghost predicate FollowsVotes(row: TaskRow, task: Task) {
    var yes, no := Ayes(row.participants), Noes(row.participants);
    var total := MapSum(map id | id in row.participants :: row.participants[id].shares);
    && (task.DeclinedPhase? <==> no > total - Needed(row))
    && (task.RunningPhase? || task.FailedPhase? <==> yes >= Needed(row) && Makeable(row))
    && !task.FinishedPhase?
    && (task.DeclinedPhase? ==> task.accepts == yes && task.rejects == no && row.result == Some(Failure("Task declined")))
  }

  lemma VoteFollows(groups: Groups, row: TaskRow, task: Task, chosen: seq<Device>, helper: Helper)
    requires task.VotingPhase? && RowBase(groups, row.(active := map[])) && Voted(groups, row.(active := map[]), task)
    requires var (slot, _) := Settle(row, task, chosen, helper);
             Ayes(row.participants) >= Needed(row) ==> (slot.task.VotingPhase? <==> !Makeable(row))
    ensures var (slot, _) := Settle(row, task, chosen, helper);
            slot.row.participants == row.participants && FollowsVotes(slot.row, slot.task)
  {
    hide Settle, TotalShares, Accepts, Rejects, Makeable, Needed, Ayes, Noes, RowBase, Voted, MapSum, AlikeRows;
    var bare := row.(active := map[]);
    VotedTallies(groups, bare, task);
    SettleFollows(row, task, chosen, helper);
    SettleKeepsRow(row, task, chosen, helper);
    var slot := Settle(row, task, chosen, helper).0;
    AlikeIsAlike(row, slot.row);
    BareIsAlike(row);
    AlikeIsAlike(row, bare);
    WeightsAre(row);
  }

  lemma BareIsAlike(row: TaskRow)
    ensures AlikeRows(row, row.(active := map[]))
  {
  }

  /** A task that was accepted has left its vote if and only if it can be made. */
  lemma AcceptedLeaves(env: Env, groups: Groups, row: TaskRow, task: Task)
    requires TaskInv(env, groups, row, task) && Acceptable(row) && !task.FinishedPhase? && !task.DeclinedPhase?
    requires task.VotingPhase? ==> Accepts(task.decisions) >= task.acceptThreshold
    requires !Sound(row) ==> task.VotingPhase?
    ensures task.VotingPhase? <==> !Makeable(row)
  {
    hide RowBase, Makeable, Constructible, Acceptable, Voted, Accepts, Rejects, CountsWithin, Launched, Unstarted,
         RunningMatches, AcceptedRow;
    MakeableIff(row);
  }

  lemma DecideFollows(env: Env, groups: Groups, slot: Slot, id: Bytes, accept: bool, activations: map<Bytes, nat>,
                      now: nat, chosen: seq<Device>, helper: Helper)
    requires ValidEnv(env) && TaskInv(env, groups, slot.row, slot.task) && slot.task.VotingPhase?
    requires id in IdSet(slot.task.info.participants) && Draws(slot, id, accept, activations, now, chosen)
    ensures var slot' := Decide(slot, id, accept, chosen, helper).0;
            && Recorded(slot.row.participants, id, accept, slot'.row.participants)
            && FollowsVotes(slot'.row, slot'.task)
  {
    hide Settle, TaskInv, RowBase, Voted, WithVote, Makeable, Needed, Ayes, Noes, FollowsVotes, Draws, Sound,
         Acceptable, IdSet, AlikeRows;
    var row, task := StoreDecision(slot.row, id, accept), WithVote(slot.task, id, accept);
    var slot' := Settle(row, task, chosen, helper).0;
    VotingIsBare(env, groups, slot.row, slot.task);
    ParticipantHasRow(groups, slot.row.(active := map[]), slot.task.info, slot.task, id);
    RecordedBare(groups, slot, id, accept);
    DecideKeeps(env, groups, slot, id, accept, activations, now, chosen, helper);
    VotedTallies(groups, row.(active := map[]), task);
    SettleFollows(row, task, chosen, helper);
    SettleKeepsRow(row, task, chosen, helper);
    BareIsAlike(row);
    AlikeIsAlike(row, row.(active := map[]));
    AlikeIsAlike(row, slot'.row);
    AlikeIsAlike(slot.row, row);
    if Ayes(row.participants) >= Needed(row) {
      if !Sound(slot'.row) { UnsoundStays(env, groups, slot, id, accept, activations, now, chosen, helper); }
      AcceptedLeaves(env, groups, slot'.row, slot'.task);
    }
    VoteFollows(groups, row, task, chosen, helper);
  }

  lemma ParticipantHasRow(groups: Groups, row: TaskRow, info: TaskInfo, task: Task, id: Bytes)
    requires task.VotingPhase? && RowBase(groups, row) && Voted(groups, row, task) && info == task.info
    ensures id in IdSet(info.participants) <==> id in row.participants
  {
    hide RowBase, Cast, SameVotes, ContextOf;
  }

  lemma RecordedBare(groups: Groups, slot: Slot, id: Bytes, accept: bool)
    requires slot.task.VotingPhase? && id in IdSet(slot.task.info.participants)
    requires var bare := slot.row.(active := map[]); RowBase(groups, bare) && Voted(groups, bare, slot.task)
    ensures var bare := StoreDecision(slot.row, id, accept).(active := map[]);
            RowBase(groups, bare) && Voted(groups, bare, WithVote(slot.task, id, accept))
    ensures AlikeRows(slot.row, StoreDecision(slot.row, id, accept))
  {
    hide RowBase, Voted, Decided, StoreDecision, IdSet;
    VoteIsRecorded(groups, Slot(slot.row.(active := map[]), slot.task), id, accept);
    StoreDecisionBare(slot.row, id, accept);
    StoreDecisionKeeps(slot.row, id, accept);
  }

  lemma UnsoundStays(env: Env, groups: Groups, slot: Slot, id: Bytes, accept: bool, activations: map<Bytes, nat>,
                     now: nat, chosen: seq<Device>, helper: Helper)
    requires ValidEnv(env) && TaskInv(env, groups, slot.row, slot.task) && slot.task.VotingPhase?
    requires id in IdSet(slot.task.info.participants) && Draws(slot, id, accept, activations, now, chosen)
    requires !Sound(slot.row)
    ensures var task' := Decide(slot, id, accept, chosen, helper).0.task; task'.VotingPhase? || task'.DeclinedPhase?
  {
    hide Matches, Unstarted, Decide, CountsWithin, Draws, Sound, IdSet, AcceptedRow;
    if Tracked(slot.row) {
      VotingIsVoted(env, groups, slot.row, slot.task);
      assert false;
    }
    DecideUnstarted(env, groups, slot, id, accept, activations, now, chosen, helper);
  }

  /** In every run, the vote of a participant on an undecided task is on record as cast,
      and then the task is declined, has been started, or is still voted on as the votes on
      record say, whatever the shares, and whoever voted before; a vote on a task that was
      accepted but cannot be made leaves it where it is. */
  lemma VoteDecides(env: Env, b: seq<Sys>, steps: seq<Step>, n: nat)
    requires ValidEnv(env) && Behaviour(env, b, steps) && n < |steps| && n + 1 < |b| && steps[n].CastVote?
    requires steps[n].tid in b[n].cache && b[n].cache[steps[n].tid].VotingPhase? && steps[n].tid in b[n].rows
    requires steps[n].device in b[n].rows[steps[n].tid].participants
    ensures var tid := steps[n].tid;
            && tid in b[n + 1].rows && tid in b[n + 1].cache
            && Recorded(b[n].rows[tid].participants, steps[n].device, steps[n].accept, b[n + 1].rows[tid].participants)
            && FollowsVotes(b[n + 1].rows[tid], b[n + 1].cache[tid])
  {
    hide *;
    StepAt(env, b, steps, n + 1);
    RunsKeepInv(env, b, steps, n);
    var tid := steps[n].tid;
    InvParts(env, b[n], tid);
    VoteStep(env, b[n], steps[n]);
    SlotParts(b[n + 1], tid);
  }

  lemma VoteStep(env: Env, s: Sys, step: Step)
    requires ValidEnv(env) && Enabled(s, step) && step.CastVote? && step.tid in s.rows && step.tid in s.cache
    requires TaskInv(env, s.groups, s.rows[step.tid], s.cache[step.tid]) && s.cache[step.tid].VotingPhase?
    requires step.device in s.rows[step.tid].participants
    ensures var s' := Apply(env, s, step);
            && step.tid in s'.rows && step.tid in s'.cache
            && var slot' := SlotOf(s', step.tid);
               && Recorded(s.rows[step.tid].participants, step.device, step.accept, slot'.row.participants)
               && FollowsVotes(slot'.row, slot'.task)
  {
    hide Decide, TaskInv, FollowsVotes, Recorded, RowBase, Voted, Draws, IdSet, Touched;
    var slot := SlotOf(s, step.tid);
    VotingIsBare(env, s.groups, slot.row, slot.task);
    ParticipantHasRow(s.groups, slot.row.(active := map[]), slot.task.info, slot.task, step.device);
    DecideFollows(env, s.groups, slot, step.device, step.accept, step.activations, s.now, step.chosen, step.helper);
  }

  lemma SettleReply(row: TaskRow, task: Task, chosen: seq<Device>, helper: Helper)
    requires task.VotingPhase?
    ensures var (slot, reply) := Settle(row, task, chosen, helper);
            reply != Impossible ==>
              (reply == Done <==> !(Accepts(task.decisions) >= task.acceptThreshold && slot.task.VotingPhase?))
  {
    hide TotalShares, Accepts, Rejects, CreateRun, Initialize, ActiveMap, Tally, StoreActive;
  }

  lemma DecideReply(env: Env, groups: Groups, slot: Slot, id: Bytes, accept: bool, activations: map<Bytes, nat>,
                    now: nat, chosen: seq<Device>, helper: Helper)
    requires ValidEnv(env) && TaskInv(env, groups, slot.row, slot.task) && slot.task.VotingPhase?
    requires id in IdSet(slot.task.info.participants) && Draws(slot, id, accept, activations, now, chosen)
    ensures var (slot', reply) := Decide(slot, id, accept, chosen, helper);
            reply == Done <==> !(Ayes(slot'.row.participants) >= Needed(slot'.row) && !Makeable(slot'.row))
  {
    hide Settle, TaskInv, RowBase, Voted, WithVote, Makeable, Needed, Ayes, Noes, Draws, IdSet, AlikeRows, Recorded,
         MapSum;
    var row, task := StoreDecision(slot.row, id, accept), WithVote(slot.task, id, accept);
    VotingIsBare(env, groups, slot.row, slot.task);
    RecordedBare(groups, slot, id, accept);
    DecideKeeps(env, groups, slot, id, accept, activations, now, chosen, helper);
    DecideFollows(env, groups, slot, id, accept, activations, now, chosen, helper);
    VotedTallies(groups, row.(active := map[]), task);
    SettleReply(row, task, chosen, helper);
    SettleFollows(row, task, chosen, helper);
    SettleKeepsRow(row, task, chosen, helper);
    BareIsAlike(row);
    AlikeIsAlike(row, row.(active := map[]));
    AlikeIsAlike(row, Settle(row, task, chosen, helper).0.row);
  }

  /** In every run, a vote is answered by a success if and only if the task is voted on,
      the device takes part, and the votes do not accept a task that cannot be made. */
  lemma VoteReply(env: Env, b: seq<Sys>, steps: seq<Step>, n: nat)
    requires ValidEnv(env) && Behaviour(env, b, steps) && n < |steps| && n + 1 < |b| && steps[n].CastVote?
    ensures Enabled(b[n], steps[n]) && steps[n].tid in b[n].rows && steps[n].tid in b[n].cache
    ensures steps[n].tid in b[n + 1].rows
    ensures var tid, row' := steps[n].tid, b[n + 1].rows[steps[n].tid];
            ReplyTo(env, b[n], steps[n]) == Done <==>
              && b[n].cache[tid].VotingPhase? && steps[n].device in b[n].rows[tid].participants
              && !(Ayes(row'.participants) >= Needed(row') && !Makeable(row'))
  {
    hide Behaviour, Inv, TaskInv, RowInv, Ayes, Needed, Makeable;
    StepAt(env, b, steps, n + 1);
    RunsKeepInv(env, b, steps, n);
    VoteIs(env, b[n], steps[n]);
    hide Apply, Enabled, ReplyTo;
    InvParts(env, b[n], steps[n].tid);
    VoteStepReply(env, b[n], steps[n]);
  }

  lemma VoteIs(env: Env, s: Sys, step: Step)
    requires Enabled(s, step) && step.CastVote?
    ensures step.tid in s.rows && step.tid in s.cache && step.tid in Apply(env, s, step).rows
    ensures Draws(SlotOf(s, step.tid), step.device, step.accept, step.activations, s.now, step.chosen)
    ensures var (slot, reply) := Decide(SlotOf(s, step.tid), step.device, step.accept, step.chosen, step.helper);
            ReplyTo(env, s, step) == reply && Apply(env, s, step).rows[step.tid] == slot.row
  {
    hide Decide, Draws, Touched;
  }

  lemma VoteStepReply(env: Env, s: Sys, step: Step)
    requires ValidEnv(env) && Enabled(s, step) && step.CastVote? && step.tid in s.rows && step.tid in s.cache
    requires TaskInv(env, s.groups, s.rows[step.tid], s.cache[step.tid])
    ensures step.tid in Apply(env, s, step).rows
    ensures var row' := Apply(env, s, step).rows[step.tid];
            ReplyTo(env, s, step) == Done <==>
              && s.cache[step.tid].VotingPhase? && step.device in s.rows[step.tid].participants
              && !(Ayes(row'.participants) >= Needed(row') && !Makeable(row'))
  {
    hide Apply, Enabled, ReplyTo, TaskInv, Draws, Settle, StoreDecision, WithVote, IdSet, RowBase, Voted, Ayes, Needed,
         Makeable;
    VoteIs(env, s, step);
    var slot := SlotOf(s, step.tid);
    if slot.task.VotingPhase? {
      VotingIsBare(env, s.groups, slot.row, slot.task);
      ParticipantHasRow(s.groups, slot.row.(active := map[]), slot.task.info, slot.task, step.device);
      if step.device in IdSet(slot.task.info.participants) {
        DecideReply(env, s.groups, slot, step.device, step.accept, step.activations, s.now, step.chosen, step.helper);
      }
    }
  }

  // ------------------------------------------------------------- votes and receipts

  /** The participants of a task after a step: a vote and an acknowledgement are put
      down for their device, and nothing else ever changes. */
  ghost predicate PutDown(s: Sys, step: Step, tid: nat, rows: map<Bytes, ParticipantRow>)
    requires tid in s.rows
  {
    var before := s.rows[tid].participants;
    rows == if step.CastVote? && step.tid == tid && tid in s.cache && s.cache[tid].VotingPhase? && step.device in before
            then before[step.device := before[step.device].(decision := Some(step.accept))]
            else if step.Confirm? && step.tid == tid && tid in s.cache && s.cache[tid].FinishedPhase?
                    && step.device in before
            then before[step.device := before[step.device].(acknowledged := true)]
            else before
  }

  lemma HandledPutsDown(env: Env, s: Sys, step: Step, tid: nat)
    requires ValidEnv(env) && Enabled(s, step) && Touches(s, step, tid) && tid in s.rows && tid in s.cache
    requires TaskInv(env, s.groups, s.rows[tid], s.cache[tid])
    ensures PutDown(s, step, tid, Handled(env, s, step, tid).row.participants)
  {
    hide UpdateTask, Restart, TaskInv, Draws, Applies, RowBase, Voted, Settle, IdSet;
    var slot := SlotOf(s, tid);
    match step
    case CastVote(_, device, accept, _, chosen, helper) =>
      if slot.task.VotingPhase? {
        VotingIsBare(env, s.groups, slot.row, slot.task);
        ParticipantHasRow(s.groups, slot.row.(active := map[]), slot.task.info, slot.task, device);
        SettleKeepsRow(StoreDecision(slot.row, device, accept), WithVote(slot.task, device, accept), chosen, helper);
      }
    case Submit(_, device, msgs, attempt, order, helper) =>
      UpdateKeeps(env, s.groups, slot, device, msgs, attempt, order, helper);
    case Confirm(_, _) =>
    case RestartNext(_) =>
  }

  /** In every run, what is on record of who voted how and who acknowledged a task is
      exactly what the participants sent. */
  lemma RecordsAreExact(env: Env, b: seq<Sys>, steps: seq<Step>, n: nat, tid: nat)
    requires ValidEnv(env) && Behaviour(env, b, steps) && n < |steps| && n + 1 < |b| && tid in b[n].rows
    ensures tid in b[n + 1].rows && PutDown(b[n], steps[n], tid, b[n + 1].rows[tid].participants)
  {
    hide *;
    StepAt(env, b, steps, n + 1);
    RunsKeepInv(env, b, steps, n);
    InvParts(env, b[n], tid);
    CacheHasRows(env, b[n]);
    if !Touches(b[n], steps[n], tid) {
      Untouched(env, b[n], steps[n], tid);
      AloneParts(b[n], steps[n], b[n + 1], tid);
      UntouchedPutsDown(b[n], steps[n], tid);
    } else {
      TouchedStep(env, b[n], steps[n], tid);
      SlotParts(b[n + 1], tid);
      HandledPutsDown(env, b[n], steps[n], tid);
    }
  }

  lemma UntouchedPutsDown(s: Sys, step: Step, tid: nat)
    requires tid in s.rows && !Touches(s, step, tid)
    ensures PutDown(s, step, tid, s.rows[tid].participants)
  {
  }

  // ------------------------------------------------------------- active shares on record

  /** The active shares on record after a step: the participant's vote that accepts a task
      puts down, for each device without any, how many were drawn; all else stays. */
  ghost predicate SharesPutDown(s: Sys, step: Step, tid: nat, row': TaskRow)
    requires tid in s.rows
  {
    var before := s.rows[tid].active;
    if step.CastVote? && step.tid == tid && tid in s.cache && s.cache[tid].VotingPhase?
       && step.device in s.rows[tid].participants && Ayes(row'.participants) >= Needed(row')
    then
      && (forall id :: id in row'.active <==> id in before || id in Ids(step.chosen))
      && forall id | id in row'.active ::
           row'.active[id] == if id in before then before[id] else multiset(Ids(step.chosen))[id]
    else row'.active == before
  }

  lemma TallyOver(chosen: seq<Device>, before: map<Bytes, nat>)
    ensures var after := Tally(chosen) + before;
            && (forall id :: id in after <==> id in before || id in Ids(chosen))
            && forall id | id in after ::
                 after[id] == if id in before then before[id] else multiset(Ids(chosen))[id]
  {
  }

  lemma VoteSharesPutDown(env: Env, s: Sys, step: Step)
    requires ValidEnv(env) && Enabled(s, step) && step.CastVote? && step.tid in s.rows && step.tid in s.cache
    requires TaskInv(env, s.groups, s.rows[step.tid], s.cache[step.tid]) && s.cache[step.tid].VotingPhase?
    requires step.device in IdSet(s.cache[step.tid].info.participants)
    ensures step.device in s.rows[step.tid].participants
    ensures var row' := Decide(SlotOf(s, step.tid), step.device, step.accept, step.chosen, step.helper).0.row;
            SharesPutDown(s, step, step.tid, row')
  {
    hide Enabled, Settle, TaskInv, RowBase, Voted, WithVote, Needed, Ayes, Noes, IdSet, AlikeRows, Accepts, Tally, Ids,
         StoreDecision;
    var slot := SlotOf(s, step.tid);
    var row, task := StoreDecision(slot.row, step.device, step.accept), WithVote(slot.task, step.device, step.accept);
    VotingIsBare(env, s.groups, slot.row, slot.task);
    ParticipantHasRow(s.groups, slot.row.(active := map[]), slot.task.info, slot.task, step.device);
    RecordedBare(s.groups, slot, step.device, step.accept);
    VotedTallies(s.groups, row.(active := map[]), task);
    SettleKeepsRow(row, task, step.chosen, step.helper);
    BareIsAlike(row);
    AlikeIsAlike(row, row.(active := map[]));
    AlikeIsAlike(row, Settle(row, task, step.chosen, step.helper).0.row);
    VoteKeepsThreshold(slot.task, step.device, step.accept);
    SharesOnRecord.DecidedActive(slot, step.device, step.accept, step.chosen, step.helper);
    TallyOver(step.chosen, slot.row.active);
  }

  lemma VoteKeepsThreshold(task: Task, id: Bytes, accept: bool)
    requires task.VotingPhase?
    ensures WithVote(task, id, accept).acceptThreshold == task.acceptThreshold
  {
  }

  lemma HandledSharesPutDown(env: Env, s: Sys, step: Step, tid: nat)
    requires ValidEnv(env) && Enabled(s, step) && Touches(s, step, tid) && tid in s.rows && tid in s.cache
    requires TaskInv(env, s.groups, s.rows[tid], s.cache[tid])
    ensures SharesPutDown(s, step, tid, Handled(env, s, step, tid).row)
  {
    hide UpdateTask, Restart, TaskInv, Draws, Applies, RowBase, Voted, Settle, IdSet, Ayes, Needed, StoreDecision,
         WithVote;
    var slot := SlotOf(s, tid);
    match step
    case CastVote(_, device, _, _, _, _) =>
      if slot.task.VotingPhase? {
        if device in IdSet(slot.task.info.participants) {
          VoteSharesPutDown(env, s, step);
        } else {
          VotingIsBare(env, s.groups, slot.row, slot.task);
          ParticipantHasRow(s.groups, slot.row.(active := map[]), slot.task.info, slot.task, device);
        }
      }
    case Submit(_, device, msgs, attempt, order, helper) =>
      UpdateKeepsActive(env, s.groups, slot, device, msgs, attempt, order, helper);
    case Confirm(_, _) =>
    case RestartNext(_) =>
  }

  /** In every run, the active shares on record are those the accepting vote has drawn, and
      stay. */
  lemma DrawIsOnRecord(env: Env, b: seq<Sys>, steps: seq<Step>, n: nat, tid: nat)
    requires ValidEnv(env) && Behaviour(env, b, steps) && n < |steps| && n + 1 < |b| && tid in b[n].rows
    ensures tid in b[n + 1].rows && SharesPutDown(b[n], steps[n], tid, b[n + 1].rows[tid])
  {
    hide *;
    StepAt(env, b, steps, n + 1);
    RunsKeepInv(env, b, steps, n);
    InvParts(env, b[n], tid);
    CacheHasRows(env, b[n]);
    if !Touches(b[n], steps[n], tid) {
      Untouched(env, b[n], steps[n], tid);
      AloneParts(b[n], steps[n], b[n + 1], tid);
      UntouchedSharesPutDown(b[n], steps[n], tid);
    } else {
      TouchedStep(env, b[n], steps[n], tid);
      SlotParts(b[n + 1], tid);
      HandledSharesPutDown(env, b[n], steps[n], tid);
    }
  }

  lemma UntouchedSharesPutDown(s: Sys, step: Step, tid: nat)
    requires tid in s.rows && !Touches(s, step, tid)
    ensures SharesPutDown(s, step, tid, s.rows[tid])
  {
    hide Ayes, Needed;
  }
}
