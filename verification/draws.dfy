/** Accepted tasks have their shares on record, in every run and in whatever a
    hydration has read: so the communicator's assertion fires for group requests of one
    share only. */
module SharesOnRecord {
  import opened Basics
  import opened Shares
  import opened Voting
  import opened Quorum
  import opened Communication
  import opened Rounds
  import opened Store
  import opened Handlers
  import opened Refinement
  import opened Preservation
  import opened Invariant
  import opened System
  import opened Runs
  import opened Timer

  // ------------------------------------------------------------------- enough shares

  /** The counts stand for at least as many active shares as the vote asks for. */
  ghost predicate Enough(row: TaskRow, counts: map<Bytes, nat>) {
    forall ps | Listing(row.participants, ps) :: |ActiveMap(ps, counts)| >= AcceptThreshold(row)
  }

  /** No count is taken back. */
  ghost predicate Keeps(counts: map<Bytes, nat>, counts': map<Bytes, nat>) {
    forall id | id in counts :: id in counts' && counts'[id] == counts[id]
  }

  lemma MoreActive(ps: seq<Participant>, counts: map<Bytes, nat>, counts': map<Bytes, nat>)
    requires Keeps(counts, counts')
    ensures |ActiveMap(ps, counts)| <= |ActiveMap(ps, counts')|
  {
    hide Expand, SortById, FirstIndex;
    SubsetSameSize(ActiveMap(ps, counts).Keys, ActiveMap(ps, counts').Keys);
  }

  /** Rows of one request: the same devices with the same shares, the same threshold. */
  ghost predicate SameTerms(row: TaskRow, row': TaskRow) {
    && row'.kind == row.kind && row'.threshold == row.threshold && row'.groupId == row.groupId && row'.data == row.data
    && People(row'.participants) == People(row.participants)
  }

  lemma TermsFix(row: TaskRow, row': TaskRow)
    requires SameTerms(row, row')
    ensures RowTotal(row') == RowTotal(row) && AcceptThreshold(row') == AcceptThreshold(row)
    ensures row'.participants.Keys == row.participants.Keys
    ensures forall ps :: Listing(row'.participants, ps) <==> Listing(row.participants, ps)
  {
    forall ps ensures Listing(row'.participants, ps) <==> Listing(row.participants, ps) {
      if Listing(row'.participants, ps) { ListingByPeople(row'.participants, row.participants, ps); }
      if Listing(row.participants, ps) { ListingByPeople(row.participants, row'.participants, ps); }
    }
    assert row'.participants.Keys == People(row.participants).Keys == row.participants.Keys;
    forall id | id in row.participants ensures row'.participants[id].shares == row.participants[id].shares {
      assert People(row'.participants)[id] == People(row.participants)[id];
    }
    assert RowWeights(row'.participants) == RowWeights(row.participants);
  }

  lemma EnoughStays(row: TaskRow, row': TaskRow, counts: map<Bytes, nat>, counts': map<Bytes, nat>)
    requires SameTerms(row, row') && Keeps(counts, counts') && Enough(row, counts)
    ensures Enough(row', counts')
  {
    hide Listing, ActiveMap, People, RowTotal, SameTerms, AcceptThreshold, Keeps;
    TermsFix(row, row');
    forall ps | Listing(row'.participants, ps) ensures |ActiveMap(ps, counts')| >= AcceptThreshold(row') {
      MoreActive(ps, counts, counts');
    }
  }

  /** Shares are drawn in full or not at all, and if the votes accept the task they are
      drawn. */
  ghost predicate Drawn(row: TaskRow) {
    (row.active == map[] || Enough(row, row.active)) && (AcceptedRow(row) ==> row.active != map[])
  }

  /** What a step leaves of a row as far as the draw goes. */
  ghost predicate Carries(row: TaskRow, row': TaskRow) {
    SameTerms(row, row') && Keeps(row.active, row'.active)
  }

  lemma DrawnCarries(row: TaskRow, row': TaskRow)
    requires Drawn(row) && Carries(row, row') && row'.active == row.active && (AcceptedRow(row') ==> AcceptedRow(row))
    ensures Drawn(row')
  {
    hide Enough, AcceptedRow, SameTerms;
    if row.active != map[] {
      EnoughStays(row, row', row.active, row'.active);
    }
  }

  // ------------------------------------------------------------------------- one vote

  lemma SettledActive(row: TaskRow, task: Task, chosen: seq<Device>, helper: Helper)
    requires task.VotingPhase?
    ensures var active := Settle(row, task, chosen, helper).0.row.active;
            active == if Accepts(task.decisions) >= task.acceptThreshold then Tally(chosen) + row.active else row.active
  {
    hide Accepts, Rejects, TotalShares, CreateRun, Initialize, ActiveMap, Tally, SortById;
  }

  lemma DecidedActive(slot: Slot, id: Bytes, accept: bool, chosen: seq<Device>, helper: Helper)
    requires slot.task.VotingPhase? && id in IdSet(slot.task.info.participants)
    ensures var task := WithVote(slot.task, id, accept);
            Decide(slot, id, accept, chosen, helper).0.row.active
            == if Accepts(task.decisions) >= task.acceptThreshold then Tally(chosen) + slot.row.active
               else slot.row.active
  {
    hide Settle, WithVote, IdSet, Accepts, Tally;
    SettledActive(StoreDecision(slot.row, id, accept), WithVote(slot.task, id, accept), chosen, helper);
  }

  lemma DrawIsEnough(row: TaskRow, task: Task, activations: map<Bytes, nat>, now: nat, chosen: seq<Device>)
    requires task.VotingPhase? && InfoMatches(row, task.info) && Cast(task.info.participants, task.decisions)
    requires Accepts(task.decisions) >= task.acceptThreshold == AcceptThreshold(row)
    requires MayDraw(task, activations, now, chosen)
    ensures Enough(row, Tally(chosen))
  {
    hide Sample, Pool, Cast, Accepts, DistinctIds, ActiveMap, Tally, Listing, FirstIndex, WithinShares;
    var qs := task.info.participants;
    ListingDistinct(row.participants, qs);
    QuorumIsAssigned(qs, task.decisions, task.acceptThreshold, activations, now, chosen);
    forall ps | Listing(row.participants, ps) ensures |ActiveMap(ps, Tally(chosen))| >= AcceptThreshold(row) {
      ActiveOfListing(row.participants, qs, ps, Tally(chosen));
    }
  }

  lemma EnoughIsSome(row: TaskRow, ps: seq<Participant>, counts: map<Bytes, nat>)
    requires Enough(row, counts) && Listing(row.participants, ps) && AcceptThreshold(row) >= 1
    ensures counts != map[]
  {
    hide Listing, AcceptThreshold, ActiveMap, DistinctIds;
    if counts == map[] {
      ListingDistinct(row.participants, ps);
      NoneActive(ps);
      assert false;
    }
  }

  lemma NoneActive(ps: seq<Participant>)
    requires DistinctIds(ps)
    ensures |ActiveMap(ps, map[])| == 0
  {
    hide ActiveMap, DistinctIds, FirstIndex;
    if i :| i in ActiveMap(ps, map[]) {
      var p := ActiveOwner(ps, map[], i);
      assert false;
    }
    assert ActiveMap(ps, map[]) == map[];
  }

  /** A vote that accepts the task draws shares in the same step. */
  lemma VoteDraws(env: Env, groups: Groups, slot: Slot, id: Bytes, accept: bool,
                  activations: map<Bytes, nat>, now: nat, chosen: seq<Device>, helper: Helper)
    requires TaskInv(env, groups, slot.row, slot.task) && slot.task.VotingPhase? && Drawn(slot.row)
    requires id in IdSet(slot.task.info.participants) && Draws(slot, id, accept, activations, now, chosen)
    ensures var row' := Decide(slot, id, accept, chosen, helper).0.row; Drawn(row') && Carries(slot.row, row')
  {
    hide TaskInv, Decide, Decided, IdSet, RowBase, Voted, AcceptedRow, Enough, Tally, StoreDecision, SameTerms,
         Accepts, MayDraw, Cast;
    var row, task := slot.row, WithVote(slot.task, id, accept);
    var bare := row.(active := map[]);
    var stored := StoreDecision(bare, id, accept);
    var row' := Decide(slot, id, accept, chosen, helper).0.row;
    VotingIsBare(env, groups, row, slot.task);
    VoteIsRecorded(groups, Slot(bare, slot.task), id, accept);
    DecidedRow(slot, id, accept, chosen, helper);
    DecidedActive(slot, id, accept, chosen, helper);
    VotedAccepts(groups, stored, task, row');
    VotedTerms(groups, stored, task);
    VoteKeepsTerms(slot, id, accept, chosen, helper);
    if Accepts(task.decisions) >= task.acceptThreshold {
      DrawIsEnough(stored, task, activations, now, chosen);
      DrawnOnce(row, stored, row', task.info.participants, Tally(chosen));
    } else {
      DrawnUnaccepted(row, row');
    }
  }

  lemma VotedTerms(groups: Groups, row: TaskRow, task: Task)
    requires task.VotingPhase? && RowBase(groups, row) && Voted(groups, row, task)
    ensures InfoMatches(row, task.info) && Cast(task.info.participants, task.decisions)
    ensures task.acceptThreshold == AcceptThreshold(row) >= 1 && Listing(row.participants, task.info.participants)
  {
    hide Cast, SameVotes, ContextOf, Listing, RowKeys, StoredAcks, OfGroup;
  }

  lemma VoteKeepsTerms(slot: Slot, id: Bytes, accept: bool, chosen: seq<Device>, helper: Helper)
    requires slot.task.VotingPhase? && id in IdSet(slot.task.info.participants)
    ensures SameTerms(slot.row, Decide(slot, id, accept, chosen, helper).0.row)
    ensures var stored := StoreDecision(slot.row.(active := map[]), id, accept);
            SameTerms(stored, Decide(slot, id, accept, chosen, helper).0.row)
  {
    hide Settle, WithVote, IdSet, StoreDecision, People;
    StoreDecisionKeeps(slot.row, id, accept);
    StoreDecisionBare(slot.row, id, accept);
    SettleTerms(StoreDecision(slot.row, id, accept), WithVote(slot.task, id, accept), chosen, helper);
  }

  lemma SettleTerms(row: TaskRow, task: Task, chosen: seq<Device>, helper: Helper)
    requires task.VotingPhase?
    ensures SameTerms(row, Settle(row, task, chosen, helper).0.row)
  {
    hide Verdict, TotalShares, CreateRun, Initialize, ActiveMap, Tally, SortById, People;
  }

  lemma DrawnOnce(row: TaskRow, stored: TaskRow, row': TaskRow, ps: seq<Participant>, counts: map<Bytes, nat>)
    requires Drawn(row) && SameTerms(row, row') && SameTerms(stored, row') && row'.active == counts + row.active
    requires Enough(stored, counts) && Listing(stored.participants, ps) && AcceptThreshold(stored) >= 1
    ensures Drawn(row') && Keeps(row.active, row'.active)
  {
    hide Enough, AcceptedRow, SameTerms, Listing, AcceptThreshold;
    TermsFix(stored, row');
    if row.active == map[] {
      assert row'.active == counts;
      EnoughStays(stored, row', counts, counts);
    } else {
      EnoughStays(row, row', row.active, row'.active);
    }
    EnoughIsSome(row', ps, row'.active);
  }

  lemma DrawnUnaccepted(row: TaskRow, row': TaskRow)
    requires Drawn(row) && SameTerms(row, row') && row'.active == row.active && !AcceptedRow(row')
    ensures Drawn(row') && Carries(row, row')
  {
    hide Enough, AcceptedRow, SameTerms;
    if row.active != map[] {
      EnoughStays(row, row', row.active, row'.active);
    }
  }

  // ------------------------------------------------------------------------- one step

  lemma HandledDraws(env: Env, s: Sys, step: Step, tid: nat)
    requires ValidEnv(env) && Enabled(s, step) && Touches(s, step, tid) && tid in s.rows && tid in s.cache
    requires TaskInv(env, s.groups, s.rows[tid], s.cache[tid]) && Drawn(s.rows[tid])
    ensures var row' := Handled(env, s, step, tid).row; Drawn(row') && Carries(s.rows[tid], row')
  {
    hide Decide, UpdateTask, StoreAck, RestartTask, TaskInv, Drawn, Carries, IdSet, Draws, Applies;
    var slot := SlotOf(s, tid);
    match step
    case CastVote(_, device, accept, activations, chosen, helper) =>
      if slot.task.VotingPhase? && device in IdSet(slot.task.info.participants) {
        VoteDraws(env, s.groups, slot, device, accept, activations, s.now, chosen, helper);
      } else {
        StrangerChangesNothing(slot, device, accept, chosen, helper);
        SameCarries(slot.row, slot.row);
      }
    case Submit(_, device, msgs, attempt, order, helper) =>
      UpdateKeeps(env, s.groups, slot, device, msgs, attempt, order, helper);
      UpdateKeepsActive(env, s.groups, slot, device, msgs, attempt, order, helper);
      StandingCarries(slot.row, Handled(env, s, step, tid).row);
    case Confirm(_, device) =>
      StoreAckKeeps(slot.row, device);
      SameCarries(slot.row, Handled(env, s, step, tid).row);
    case RestartNext(helper) =>
      RestartShape(slot, helper);
      RestartKeepsTerms(slot, helper);
      SameCarries(slot.row, Handled(env, s, step, tid).row);
  }

  lemma RestartKeepsTerms(slot: Slot, helper: Helper)
    ensures var row' := RestartTask(slot, helper).0.row;
            row'.active == slot.row.active && row'.groupId == slot.row.groupId && row'.data == slot.row.data
  {
    hide Restart;
  }

  lemma SameCarries(row: TaskRow, row': TaskRow)
    requires Drawn(row) && row'.active == row.active && row'.kind == row.kind && row'.threshold == row.threshold
    requires row'.groupId == row.groupId && row'.data == row.data && People(row'.participants) == People(row.participants)
    requires StoredVotes(row'.participants) == StoredVotes(row.participants)
    requires RowWeights(row'.participants) == RowWeights(row.participants)
    ensures Drawn(row') && Carries(row, row')
  {
    hide Drawn, People, StoredVotes, RowWeights, AcceptedRow;
    SameAccepted(row, row');
    DrawnCarries(row, row');
  }

  lemma StandingCarries(row: TaskRow, row': TaskRow)
    requires Drawn(row) && SameStanding(row, row') && row'.active == row.active
    ensures Drawn(row') && Carries(row, row')
  {
    hide Drawn, Carries;
    SameCarries(row, row');
  }

  lemma DrawStep(env: Env, s: Sys, step: Step, tid: nat)
    requires ValidEnv(env) && Inv(env, s) && Enabled(s, step) && tid in s.rows && Drawn(s.rows[tid])
    ensures var s' := Apply(env, s, step);
            tid in s'.rows && Drawn(s'.rows[tid]) && Carries(s.rows[tid], s'.rows[tid])
  {
    hide *;
    CacheHasRows(env, s);
    InvParts(env, s, tid);
    if !Touches(s, step, tid) {
      Untouched(env, s, step, tid);
      AloneParts(s, step, Apply(env, s, step), tid);
      SameCarries(s.rows[tid], s.rows[tid]);
    } else {
      TouchedStep(env, s, step, tid);
      HandledDraws(env, s, step, tid);
      SlotParts(Apply(env, s, step), tid);
    }
  }

  lemma NewTaskDraws(env: Env, s: Sys, step: Step, tid: nat)
    requires Inv(env, s) && Enabled(s, step) && tid !in s.rows && tid in Apply(env, s, step).rows
    ensures Drawn(Apply(env, s, step).rows[tid])
  {
    hide Inv, Apply, Enabled, AcceptedRow, Enough;
    NewTaskNotAccepted(env, s, step, tid);
    NewTaskIsBare(env, s, step, tid);
  }

  lemma NewTaskIsBare(env: Env, s: Sys, step: Step, tid: nat)
    requires Enabled(s, step) && tid !in s.rows && tid in Apply(env, s, step).rows
    ensures Apply(env, s, step).rows[tid].active == map[]
  {
    hide Enabled, Apply, Requested;
    NewTaskIsRequested(env, s, step, tid);
    RequestedParts(s, step);
  }

  // -------------------------------------------------------------------- what was read

  ghost predicate VotesAccept(row: TaskRow, votes: map<Bytes, ParticipantRow>) {
    Accepts(StoredVotes(votes)) >= AcceptThreshold(row)
  }

  /** The group a task belongs to is among those given. */
  ghost predicate InGroup(row: TaskRow, groups: Groups) {
    row.kind.GroupTask? ||
      (&& row.groupId.Some? && row.groupId.value in groups && row.data.Some?
       && groups[row.groupId.value].threshold == row.threshold >= 2)
  }

  /** However the reads of a hydration were interleaved with votes: if the votes it has
      read accept the task, shares were drawn by then, and it reads them. */
  ghost predicate ReadsDraw(row: TaskRow, h: Hydration) {
    && (h.columns.Some? ==>
          && h.columns.value.kind == row.kind && h.columns.value.threshold == row.threshold
          && h.columns.value.groupId == row.groupId && h.columns.value.data == row.data)
    && (h.groups.Some? ==> InGroup(row, h.groups.value))
    && (h.votes.Some? ==>
          && People(h.votes.value) == People(row.participants)
          && (VotesAccept(row, h.votes.value) ==> row.active != map[]))
    && (h.active.Some? ==>
          && h.votes.Some? && (h.active.value == map[] || Enough(row, h.active.value))
          && (VotesAccept(row, h.votes.value) ==> h.active.value != map[]))
  }

  lemma ReadsCarry(row: TaskRow, row': TaskRow, h: Hydration)
    requires ReadsDraw(row, h) && Carries(row, row')
    ensures ReadsDraw(row', h)
  {
    hide Enough, People, Accepts, StoredVotes, AcceptThreshold;
    TermsFix(row, row');
    if row.active != map[] {
      var id :| id in row.active;
      assert id in row'.active;
    }
    if h.active.Some? && h.active.value != map[] {
      EnoughStays(row, row', h.active.value, h.active.value);
    }
  }

  lemma ReadMoreDraws(row: TaskRow, h: Hydration, groups: Groups, ps: seq<Participant>)
    requires ReadsDraw(row, h) && Drawn(row) && InGroup(row, groups)
    ensures ReadsDraw(row, ReadMore(h, row, groups, ps))
  {
    hide Enough, People, Accepts, StoredVotes, AcceptThreshold, InGroup;
  }

  lemma RowInGroup(env: Env, groups: Groups, row: TaskRow)
    requires RowInv(env, groups, row)
    ensures InGroup(row, groups) && RowBase(groups, row)
  {
    hide Tracked, VotingMatches, RunningMatches, FinishedMatches, CountsWithin, RowKeys, StoredAcks, RowTotal, MapSum,
         Sound, Launched, AcceptedRow;
    if Tracked(row) {
      var task :| Matches(env, groups, row, task);
    }
  }

  ghost predicate DrawInv(s: Sys) {
    && (forall tid | tid in s.rows :: Drawn(s.rows[tid]))
    && (forall h | h in s.hydrations ::
          s.hydrations[h].tid in s.rows && ReadsDraw(s.rows[s.hydrations[h].tid], s.hydrations[h]))
  }

  /** Where a hydration of the next state comes from. */
  lemma HydrationFrom(env: Env, s: Sys, step: Step, h: nat)
    requires Enabled(s, step) && h in Apply(env, s, step).hydrations
    ensures var h' := Apply(env, s, step).hydrations[h];
            || (step.Ask? && step.tid in s.rows && h' == Hydration(step.tid, None, None, None, None, None))
            || (h in s.hydrations && h' == s.hydrations[h])
            || (&& step.Read? && h in s.hydrations && s.hydrations[h].tid in s.rows
                && h' == ReadMore(s.hydrations[h], s.rows[s.hydrations[h].tid], s.groups, step.listing))
  {
    hide Put, Decide, UpdateTask, Acknowledge, RestartTask, Rebuild, NewGroupTask, NewThresholdTask, Draws, Applies,
         Counted, Listing, GroupListing, StaleOf, WithTimes, QueryAnswer, Snapshot, Complete, Columns, Touched,
         ReadMore;
  }

  lemma AskedReads(row: TaskRow, tid: nat)
    ensures ReadsDraw(row, Hydration(tid, None, None, None, None, None))
  {
  }

  lemma ReadKeepsTask(h: Hydration, row: TaskRow, groups: Groups, ps: seq<Participant>)
    ensures ReadMore(h, row, groups, ps).tid == h.tid
  {
  }

  lemma DrawRows(s: Sys, tid: nat)
    requires DrawInv(s) && tid in s.rows
    ensures Drawn(s.rows[tid])
  {
    hide Drawn, ReadsDraw;
  }

  lemma DrawReads(s: Sys, h: nat)
    requires DrawInv(s) && h in s.hydrations
    ensures s.hydrations[h].tid in s.rows && ReadsDraw(s.rows[s.hydrations[h].tid], s.hydrations[h])
  {
    hide Drawn, ReadsDraw;
  }

  lemma HydrationDraws(env: Env, s: Sys, step: Step, h: nat)
    requires ValidEnv(env) && Inv(env, s) && Enabled(s, step) && DrawInv(s) && h in Apply(env, s, step).hydrations
    ensures var s' := Apply(env, s, step);
            s'.hydrations[h].tid in s'.rows && ReadsDraw(s'.rows[s'.hydrations[h].tid], s'.hydrations[h])
  {
    hide *;
    HydrationFrom(env, s, step, h);
    var s' := Apply(env, s, step);
    var h' := s'.hydrations[h];
    if h in s.hydrations {
      DrawReads(s, h);
    }
    if step.Ask? && step.tid in s.rows && h' == Hydration(step.tid, None, None, None, None, None) {
      AskedReads(s.rows[step.tid], step.tid);
    } else if h' != s.hydrations[h] {
      var row := s.rows[s.hydrations[h].tid];
      DrawRows(s, s.hydrations[h].tid);
      InvParts(env, s, s.hydrations[h].tid);
      RowInGroup(env, s.groups, row);
      ReadMoreDraws(row, s.hydrations[h], s.groups, step.listing);
      ReadKeepsTask(s.hydrations[h], row, s.groups, step.listing);
    }
    DrawRows(s, h'.tid);
    DrawStep(env, s, step, h'.tid);
    ReadsCarry(s.rows[h'.tid], s'.rows[h'.tid], h');
  }

  lemma DrawInvStep(env: Env, s: Sys, step: Step)
    requires ValidEnv(env) && Inv(env, s) && Enabled(s, step) && DrawInv(s)
    ensures DrawInv(Apply(env, s, step))
  {
    hide Inv, Apply, Enabled, Drawn, ReadsDraw, Carries;
    var s' := Apply(env, s, step);
    forall tid | tid in s'.rows ensures Drawn(s'.rows[tid]) {
      if tid in s.rows { DrawStep(env, s, step, tid); } else { NewTaskDraws(env, s, step, tid); }
    }
    forall h | h in s'.hydrations
      ensures s'.hydrations[h].tid in s'.rows && ReadsDraw(s'.rows[s'.hydrations[h].tid], s'.hydrations[h])
    {
      HydrationDraws(env, s, step, h);
    }
  }

  /** In every run, a task whose votes on record accept it has at least the threshold's
      number of active shares on record, and so does what any hydration has read. */
  lemma {:induction false} AcceptedHasShares(env: Env, b: seq<Sys>, steps: seq<Step>, n: nat)
    requires ValidEnv(env) && Behaviour(env, b, steps) && n < |b|
    ensures DrawInv(b[n])
  {
    hide *;
    BeginsEmpty(env, b, steps);
    if n == 0 {
      EmptyDraws(b[0]);
    } else {
      AcceptedHasShares(env, b, steps, n - 1);
      RunsKeepInv(env, b, steps, n - 1);
      StepAt(env, b, steps, n);
      DrawInvStep(env, b[n - 1], steps[n - 1]);
    }
  }

  lemma EmptyDraws(s: Sys)
    requires Empty(s)
    ensures DrawInv(s)
  {
  }

  // ------------------------------------------------------------- the assertion that fires

  /** A group request of a single share that its votes accept and that has not ended. */
  ghost predicate Lone(row: TaskRow) {
    row.kind.GroupTask? && RowTotal(row) == 1 && row.result.None? && AcceptedRow(row)
  }

  lemma AtMostAll(ps: seq<Participant>, counts: map<Bytes, nat>)
    requires DistinctIds(ps) && TotalShares(ps) == 1
    ensures |ActiveMap(ps, counts)| <= 1
  {
    hide ActiveMap, DistinctIds, FirstIndex, TotalShares;
    forall i | i in ActiveMap(ps, counts) ensures i == 0 {
      var p := ActiveOwner(ps, counts, i);
    }
    SubsetSameSize(ActiveMap(ps, counts).Keys, {0});
  }

  /** The communicator is made unless there is a single share. */
  lemma CommIffShares(row: TaskRow, groups: Groups, ps: seq<Participant>, protocol: ProtocolType)
    requires Enough(row, row.active) && Listing(row.participants, ps) && InGroup(row, groups) && AcceptThreshold(row) >= 1
    ensures NewComm(AcceptThreshold(row), protocol, ActiveMap(ps, row.active)).None?
            <==> row.kind.GroupTask? && RowTotal(row) == 1
  {
    hide Listing, ActiveMap, MapSum, RowWeights;
    ListingFacts(row.participants, ps);
    if row.kind.GroupTask? && RowTotal(row) == 1 {
      ListingDistinct(row.participants, ps);
      AtMostAll(ps, row.active);
    }
  }

  /** Rebuilding panics if and only if what was read is such a request. */
  lemma RebuildPanicsIff(env: Env, s: Sys, h: Hydration)
    requires Inv(env, s) && Complete(h) && HydrationOk(env, s, h) && ReadsDraw(s.rows[h.tid], h)
    ensures RebuildPanics(h.groups.value, Snapshot(h), h.listing.value) <==> Lone(Snapshot(h))
  {
    hide Inv, RowInv, TaskInv, Enough, Listing, Current, People, StoredVotes, Accepts, ActiveMap, TotalShares,
         RowTotal, CountsWithin, NewComm, RowBase, StoredAcks;
    var row, snap, ps := s.rows[h.tid], Snapshot(h), h.listing.value;
    InvParts(env, s, h.tid);
    RowInGroup(env, s.groups, row);
    BaseTotal(s.groups, row);
    TermsFix(row, snap);
    ListingTotal(snap, ps);
    if AcceptedRow(snap) {
      EnoughStays(row, snap, h.active.value, h.active.value);
      CommIffShares(snap, h.groups.value, ps, snap.protocol);
    }
  }

  lemma BaseTotal(groups: Groups, row: TaskRow)
    requires RowBase(groups, row)
    ensures AcceptThreshold(row) >= 1
  {
    hide RowKeys, OfGroup, StoredAcks;
  }

  lemma ListingTotal(row: TaskRow, ps: seq<Participant>)
    requires Listing(row.participants, ps)
    ensures TotalShares(ps) == RowTotal(row)
  {
    hide Listing, MapSum, RowWeights, TotalShares;
    ListingFacts(row.participants, ps);
  }

  /** In a group request of one share, its single device accepts by voting yes. */
  lemma SingleVote(ps: seq<Participant>, votes: map<Bytes, int>, id: Bytes, accept: bool)
    requires DistinctIds(ps) && TotalShares(ps) == 1 && (forall p | p in ps :: p.shares >= 1) && Cast(ps, votes)
    requires id in IdSet(ps)
    ensures Accepts(Decided(ps, votes, id, accept)) >= 1 <==> accept
  {
    var p :| p in ps && p.device.id == id;
    SharesOfMember(ps, p);
    SingleHolder(ps, p);
    var now := Decided(ps, votes, id, accept);
    assert now.Keys == {id};
    if accept {
      MapSumRemove(Positive(now), id);
    } else {
      assert Positive(now) == map[];
    }
  }

  lemma SingleHolder(ps: seq<Participant>, p: Participant)
    requires DistinctIds(ps) && TotalShares(ps) == 1 && (forall q | q in ps :: q.shares >= 1) && p in ps
    ensures ps == [p] && p.shares == 1
  {
    if |ps| >= 2 {
      assert false;
    }
    assert ps == [ps[0]] && ps[1..] == [];
  }

  lemma SettleCrashesIff(row: TaskRow, task: Task, chosen: seq<Device>, helper: Helper)
    requires task.VotingPhase?
    ensures var active := ActiveMap(task.info.participants, Tally(chosen));
            Settle(row, task, chosen, helper).1 == Crashed <==>
              && Accepts(task.decisions) >= task.acceptThreshold
              && NewComm(task.acceptThreshold, task.info.protocol, active).None?
  {
    hide Accepts, Rejects, TotalShares, Initialize, ActiveMap, Tally, SortById, NewComm;
  }

  lemma DrawnComm(groups: Groups, row: TaskRow, task: Task, activations: map<Bytes, nat>, now: nat, chosen: seq<Device>)
    requires task.VotingPhase? && RowBase(groups, row) && Voted(groups, row, task)
    requires MayDraw(task, activations, now, chosen) && Accepts(task.decisions) >= task.acceptThreshold
    ensures NewComm(task.acceptThreshold, task.info.protocol, ActiveMap(task.info.participants, Tally(chosen))).None?
            <==> row.kind.GroupTask? && RowTotal(row) == 1
  {
    hide Sample, Pool, Cast, Accepts, DistinctIds, ActiveMap, Tally, Listing, FirstIndex, WithinShares, RowKeys,
         SameVotes, ContextOf, StoredAcks, MapSum, People;
    var ps := task.info.participants;
    ListingDistinct(row.participants, ps);
    QuorumIsAssigned(ps, task.decisions, task.acceptThreshold, activations, now, chosen);
  }

  /** A vote panics if and only if it is the yes of the device that a group request names
      alone, and once. */
  lemma VoteCrashesIff(env: Env, groups: Groups, slot: Slot, id: Bytes, accept: bool,
                       activations: map<Bytes, nat>, now: nat, chosen: seq<Device>, helper: Helper)
    requires TaskInv(env, groups, slot.row, slot.task) && Draws(slot, id, accept, activations, now, chosen)
    ensures Decide(slot, id, accept, chosen, helper).1 == Crashed <==>
              && slot.task.VotingPhase? && id in IdSet(slot.task.info.participants) && accept
              && slot.row.kind.GroupTask? && RowTotal(slot.row) == 1
  {
    hide TaskInv, Settle, IdSet, RowBase, Voted, Decided, MayDraw, StoreDecision, Accepts, RowTotal, ActiveMap,
         NewComm, Tally;
    if slot.task.VotingPhase? && id in IdSet(slot.task.info.participants) {
      var task, bare := WithVote(slot.task, id, accept), slot.row.(active := map[]);
      var stored := StoreDecision(bare, id, accept);
      VotingIsBare(env, groups, slot.row, slot.task);
      VoteIsRecorded(groups, Slot(bare, slot.task), id, accept);
      SettleCrashesIff(StoreDecision(slot.row, id, accept), task, chosen, helper);
      StoredSameTotal(slot.row, id, accept);
      if Accepts(task.decisions) >= task.acceptThreshold {
        DrawnComm(groups, stored, task, activations, now, chosen);
      }
      if stored.kind.GroupTask? && RowTotal(stored) == 1 {
        LoneVote(groups, bare, slot.task, id, accept);
      }
    }
  }

  lemma StoredSameTotal(row: TaskRow, id: Bytes, accept: bool)
    ensures var stored := StoreDecision(row.(active := map[]), id, accept);
            stored.kind == row.kind && RowTotal(stored) == RowTotal(row) == RowTotal(row.(active := map[]))
  {
    hide StoreDecision;
    StoreDecisionKeeps(row.(active := map[]), id, accept);
  }

  lemma LoneVote(groups: Groups, row: TaskRow, task: Task, id: Bytes, accept: bool)
    requires task.VotingPhase? && RowBase(groups, row) && Voted(groups, row, task)
    requires id in IdSet(task.info.participants) && row.kind.GroupTask? && RowTotal(row) == 1
    ensures Accepts(WithVote(task, id, accept).decisions) >= task.acceptThreshold <==> accept
  {
    hide Accepts, Decided, IdSet, Cast, SameVotes, ContextOf, StoredAcks, MapSum;
    var ps := task.info.participants;
    ListingTotal(row, ps);
    ListingDistinct(row.participants, ps);
    SingleVote(ps, task.decisions, id, accept);
  }

  // ------------------------------------------------------------------ lost for good

  lemma LoneStaysOut(env: Env, s: Sys, step: Step, tid: nat)
    requires ValidEnv(env) && Inv(env, s) && DrawInv(s) && Enabled(s, step)
    requires tid in s.rows && tid !in s.cache && Lone(s.rows[tid])
    ensures var s' := Apply(env, s, step); tid in s'.rows && tid !in s'.cache && s'.rows[tid] == s.rows[tid]
  {
    hide *;
    CacheHasRows(env, s);
    if Touches(s, step, tid) {
      TouchedStep(env, s, step, tid);
      assert false;
    } else {
      Untouched(env, s, step, tid);
      AloneParts(s, step, Apply(env, s, step), tid);
      if step.Install? && step.h in s.hydrations && s.hydrations[step.h].tid == tid {
        LoneIsNotInstalled(env, s, step, tid);
      }
    }
  }

  lemma LoneIsNotInstalled(env: Env, s: Sys, step: Step, tid: nat)
    requires Inv(env, s) && DrawInv(s) && Enabled(s, step) && step.Install? && s.hydrations[step.h].tid == tid
    requires tid in s.rows && tid !in s.cache && Lone(s.rows[tid])
    ensures tid !in Apply(env, s, step).cache
  {
    hide Inv, DrawInv, HydrationOk, ReadsDraw, Lone, Rebuild, RebuildPanics, Listing, RowInv, Apply, Enabled, Snapshot;
    InstallIs(env, s, step);
    var h := s.hydrations[step.h];
    HydrationsOk(env, s, step.h);
    DrawReads(s, step.h);
    RebuildPanicsIff(env, s, h);
    SnapshotIsCurrent(env, s, h);
    PanicsMakeNothing(h.groups.value, Snapshot(h), h.listing.value);
  }

  /** In every run, such a request, once it is out of the cache, is lost: it is never
      cached again and its rows never change. */
  lemma {:induction false} LoneIsLost(env: Env, b: seq<Sys>, steps: seq<Step>, i: nat, j: nat, tid: nat)
    requires ValidEnv(env) && Behaviour(env, b, steps) && i <= j < |b|
    requires tid in b[i].rows && tid !in b[i].cache && Lone(b[i].rows[tid])
    ensures tid in b[j].rows && tid !in b[j].cache && b[j].rows[tid] == b[i].rows[tid]
    decreases j
  {
    hide *;
    if i < j {
      LoneIsLost(env, b, steps, i, j - 1, tid);
      RunsKeepInv(env, b, steps, j - 1);
      AcceptedHasShares(env, b, steps, j - 1);
      StepAt(env, b, steps, j);
      LoneStaysOut(env, b[j - 1], steps[j - 1], tid);
    }
  }
}
