/** Every request keeps rows and cache entry matched. */
module Preservation {
  import opened Basics
  import opened Shares
  import opened Voting
  import opened Quorum
  import opened Communication
  import opened Rounds
  import opened Store
  import opened Handlers
  import opened Refinement

  // ------------------------------------------------- rebuilding keeps matching

  lemma RehydratedRunOk(env: Env, row: TaskRow, run: Run, ps: seq<Participant>)
    requires ValidEnv(env) && RunOk(env, run) && RoundMatches(env, row, run) && InfoMatches(row, run.info)
    ensures RunOk(env, Rehydrated(row, run, ps))
  {
    hide Listing, DeviceClosed, RoundReceived;
    EmptyInboxIsClosed(Rehydrated(row, run, ps).comm);
  }

  lemma RehydratedActive(row: TaskRow, run: Run, ps: seq<Participant>)
    requires InfoMatches(row, run.info) && ActiveMatches(row, run) && Listing(row.participants, ps)
    ensures ActiveMatches(row, Rehydrated(row, run, ps))
  {
    hide Listing, WithinShares, ActiveMap;
    WithinSharesListed(row.participants, run.info.participants, ps, row.active);
    ActiveOfListing(row.participants, run.info.participants, ps, row.active);
  }

  lemma RehydratedOk(env: Env, groups: Groups, row: TaskRow, run: Run, ps: seq<Participant>)
    requires ValidEnv(env) && RowBase(groups, row) && RunningMatches(env, groups, row, run)
        && Listing(row.participants, ps)
    ensures RunningMatches(env, groups, row, Rehydrated(row, run, ps))
  {
    hide Listing, RunOk, ActiveMatches, RowBase, AcceptedRow, ContextOf, Startable;
    RehydratedRunOk(env, row, run, ps);
    RehydratedActive(row, run, ps);
  }

  lemma WithinSharesListed(rows: map<Bytes, ParticipantRow>, ps: seq<Participant>, qs: seq<Participant>,
      counts: map<Bytes, nat>)
    requires Listing(rows, ps) && Listing(rows, qs) && WithinShares(ps, counts)
    ensures WithinShares(qs, counts)
  {
    ListingUnique(rows, ps, qs);
    forall id | id in counts ensures 0 < counts[id] <= SharesOf(qs, id) {
      SharesForgetOrder(ps, qs, id);
    }
  }

  lemma ActiveOfListing(rows: map<Bytes, ParticipantRow>, ps: seq<Participant>, qs: seq<Participant>,
      counts: map<Bytes, nat>)
    requires Listing(rows, ps) && Listing(rows, qs)
    ensures ActiveMap(ps, counts) == ActiveMap(qs, counts)
  {
    ListingUnique(rows, ps, qs);
    ActiveMapForgetsOrder(ps, qs, counts);
  }

  lemma RebuiltVoting(env: Env, groups: Groups, row: TaskRow, task: Task, ps: seq<Participant>)
    requires task.VotingPhase? && RowBase(groups, row) && VotingMatches(groups, row, task)
        && Listing(row.participants, ps)
    ensures Rebuild(groups, row, ps).Some? && Rebuild(groups, row, ps).value.VotingPhase?
    ensures VotingMatches(groups, row, Rebuild(groups, row, ps).value)
  {
    hide Listing, Cast, Rebuild, RowBase, StoredVotes, ContextOf, Accepts, Rejects, AcceptThreshold;
    VotingAgrees(env, groups, row, task, ps);
    StoredVotesCast(row.participants, ps);
    SameVotesTally(task.decisions, row.participants);
  }

  /** A task rebuilt from matching rows matches them again. */
  lemma RebuiltMatches(env: Env, groups: Groups, row: TaskRow, task: Task, ps: seq<Participant>)
    requires ValidEnv(env) && Matches(env, groups, row, task) && Listing(row.participants, ps)
    ensures Rebuild(groups, row, ps).Some? && Matches(env, groups, row, Rebuild(groups, row, ps).value)
  {
    hide Listing, Rebuild, RowBase, VotingMatches, RunningMatches, Rehydrated;
    if task.VotingPhase? {
      RebuiltVoting(env, groups, row, task, ps);
    } else if task.RunningPhase? {
      RunningAgrees(env, groups, row, task, ps);
      RehydratedOk(env, groups, row, task.run, ps);
    } else {
      RebuiltEnding(env, groups, row, task, ps);
    }
  }

  lemma RebuiltEnding(env: Env, groups: Groups, row: TaskRow, task: Task, ps: seq<Participant>)
    requires Matches(env, groups, row, task) && (task.DeclinedPhase? || task.FailedPhase? || task.FinishedPhase?)
    requires Listing(row.participants, ps)
    ensures Rebuild(groups, row, ps).Some? && Matches(env, groups, row, Rebuild(groups, row, ps).value)
  {
    hide Listing, TotalShares, RowKeys, Accepts, Rejects, StoredVotes;
    InfosAgree(row, task.info, ps);
    if task.FailedPhase? {
      AcceptedNotDeclined(groups, row, ps);
    }
  }

  // ----------------------------------------------------------------- creation

  lemma NewRowListing(kind: TaskType, name: string, protocol: ProtocolType, keyType: KeyType, threshold: nat,
                      groupId: Option<Bytes>, data: Option<Bytes>, ps: seq<Participant>)
    requires DistinctIds(ps) && forall p | p in ps :: p.shares >= 1
    ensures var row := NewRow(kind, name, protocol, keyType, threshold, groupId, data, ps);
            && Listing(row.participants, ps) && RowKeys(row.participants)
            && RowTotal(row) == TotalShares(ps)
            && SameVotes(map[], row.participants)
            && Accepts(map[]) == 0 && Rejects(map[]) == 0
            && StoredAcks(row.participants) == {}
  {
    var row := NewRow(kind, name, protocol, keyType, threshold, groupId, data, ps);
    forall p | p in ps ensures row.participants[p.device.id].device == p.device
        && row.participants[p.device.id].shares == p.shares {
      assert p.device.id in IdSet(ps);
      DeviceOfMember(ps, p);
      SharesOfMember(ps, p);
    }
    assert RowKeys(row.participants);
    ListingFacts(row.participants, ps);
    var none: map<Bytes, int> := map[];
    assert Positive(none) == map[] && Negative(none) == map[];
    assert Positive(StoredVotes(row.participants)) == map[];
    assert Negative(StoredVotes(row.participants)) == map[];
  }

  lemma DeviceOfMember(ps: seq<Participant>, p: Participant)
    requires DistinctIds(ps) && p in ps
    ensures p.device.id in IdSet(ps) && DeviceOf(ps, p.device.id) == p.device
  {
    var d := DeviceOf(ps, p.device.id);
    var q :| q in ps && q.device.id == p.device.id && q.device == d;
  }

  /** A new group task matches its rows, whether or not it can ever start. */
  lemma NewGroupTaskMatches(env: Env, groups: Groups, name: string, ps: seq<Participant>, threshold: nat,
                            protocol: ProtocolType, keyType: KeyType)
    requires DistinctIds(ps) && (forall p | p in ps :: p.shares >= 1)
    requires NewGroupTask(name, ps, threshold, protocol, keyType).Some?
    ensures var slot := NewGroupTask(name, ps, threshold, protocol, keyType).value;
            Matches(env, groups, slot.row, slot.task)
  {
    hide Listing, RowKeys, Accepts, Rejects, TotalShares, SameVotes, DistinctIds, IdSet, SharesOf, DeviceOf,
         StoredAcks, RowTotal, NameValid;
    NewRowListing(GroupTask, name, protocol, keyType, threshold, None, None, ps);
  }

  /** `ps` lists the participants of the group. */
  ghost predicate GroupListing(g: GroupRow, ps: seq<Participant>) {
    DistinctIds(ps) && IdSet(ps) == g.participants.Keys && forall p | p in ps :: g.participants[p.device.id] == p
  }

  lemma PeopleOfGroup(g: GroupRow, rows: map<Bytes, ParticipantRow>, ps: seq<Participant>)
    requires GroupListing(g, ps) && Listing(rows, ps)
    ensures People(rows) == g.participants
    ensures RowWeights(rows) == map d | d in g.participants :: g.participants[d].shares
  {
    forall d | d in rows ensures People(rows)[d] == g.participants[d] {
      var p :| p in ps && p.device.id == d;
    }
    assert People(rows).Keys == g.participants.Keys;
  }

  lemma GroupListingFacts(g: GroupRow, ps: seq<Participant>)
    requires GroupOk(g) && GroupListing(g, ps)
    ensures DistinctIds(ps) && (forall p | p in ps :: p.shares >= 1) && g.threshold >= 2
  {
  }

  lemma NewThresholdRow(groups: Groups, id: Bytes, row: TaskRow, ps: seq<Participant>)
    requires id in groups && GroupOk(groups[id]) && GroupListing(groups[id], ps) && Listing(row.participants, ps)
    requires RowKeys(row.participants) && StoredAcks(row.participants) == {} && row.certificatesSent.None?
        && row.data.Some?
    requires var g := groups[id];
             row.kind == ThresholdKind(g.keyType) && row.protocol == g.protocol && row.keyType == g.keyType
             && row.threshold == g.threshold && row.groupId == Some(id)
    ensures RowBase(groups, row) && 1 <= row.threshold <= RowTotal(row)
  {
    hide Listing, MapSum, GroupListing, RowWeights, People, StoredAcks, RowKeys;
    PeopleOfGroup(groups[id], row.participants, ps);
  }

  /** A new threshold task matches its rows. */
  lemma NewThresholdTaskMatches(env: Env, groups: Groups, id: Bytes, decrypt: bool, name: string, data: Bytes,
                                ps: seq<Participant>)
    requires id in groups && GroupOk(groups[id]) && GroupListing(groups[id], ps)
    requires NewThresholdTask(id, groups[id], decrypt, name, data, ps).Some?
    ensures var slot := NewThresholdTask(id, groups[id], decrypt, name, data, ps).value;
            Matches(env, groups, slot.row, slot.task)
  {
    hide Listing, Accepts, Rejects, TotalShares, SameVotes, GroupListing, RowBase, StoredAcks, RowTotal, GroupOk,
         RowKeys, DistinctIds, IdSet, SharesOf, DeviceOf, GroupOf, NameValid;
    var g := groups[id];
    var row := NewThresholdTask(id, g, decrypt, name, data, ps).value.row;
    GroupListingFacts(g, ps);
    NewRowListing(row.kind, name, g.protocol, g.keyType, g.threshold, Some(id), Some(data), ps);
    NewThresholdRow(groups, id, row, ps);
  }

  // ----------------------------------------------------------------- deciding

  /** A recorded decision changes nothing the row's standing depends on. */
  lemma DecisionKeepsRow(groups: Groups, row: TaskRow, id: Bytes, accept: bool)
    requires RowBase(groups, row)
    ensures var row' := StoreDecision(row, id, accept);
            && RowBase(groups, row') && ContextOf(groups, row') == ContextOf(groups, row)
            && RowTotal(row') == RowTotal(row) && AcceptThreshold(row') == AcceptThreshold(row)
            && (Startable(row') <==> Startable(row)) && (Sound(row') <==> Sound(row))
            && row' == row.(participants := row'.participants)
  {
    StoreDecisionKeeps(row, id, accept);
    hide StoreDecision, RowKeys, MapSum, SupportedPair, CheckThreshold, RowWeights, People, Listing;
  }

  lemma ListingAfterDecision(row: TaskRow, info: TaskInfo, id: Bytes, accept: bool)
    requires InfoMatches(row, info)
    ensures InfoMatches(StoreDecision(row, id, accept), info)
  {
    StoreDecisionKeeps(row, id, accept);
  }

  /** Only a task whose participants can accept it is ever accepted. */
  lemma AcceptedIsAcceptable(row: TaskRow, ps: seq<Participant>, votes: map<Bytes, int>)
    requires Listing(row.participants, ps) && Cast(ps, votes) && Accepts(votes) >= AcceptThreshold(row)
    ensures Acceptable(row)
  {
    hide Cast, Accepts, MapSum, AcceptThreshold;
    ListingFacts(row.participants, ps);
    AcceptsAtMostBest(ps, votes);
  }

  lemma VoteIsRecorded(groups: Groups, slot: Slot, id: Bytes, accept: bool)
    requires slot.task.VotingPhase? && RowBase(groups, slot.row) && Voted(groups, slot.row, slot.task)
    requires id in IdSet(slot.task.info.participants)
    ensures var ps := slot.task.info.participants;
            var row := StoreDecision(slot.row, id, accept);
            RowBase(groups, row) && Voted(groups, row, slot.task.(decisions := Decided(ps, slot.task.decisions, id,
                accept)))
  {
    var ps := slot.task.info.participants;
    DecisionKeepsRow(groups, slot.row, id, accept);
    ListingAfterDecision(slot.row, slot.task.info, id, accept);
    DecidedCast(ps, slot.task.decisions, id, accept);
    DecisionStored(slot.row, ps, slot.task.decisions, id, accept);
    hide StoreDecision, Listing, Cast, SameVotes, RowBase, Decided, ContextOf;
  }

  /** A sound task is only accepted if it can be constructed; any accepted task needs
      two shares. */
  lemma AcceptedIsConstructible(groups: Groups, row: TaskRow, task: Task)
    requires task.VotingPhase? && RowBase(groups, row) && Sound(row) && Voted(groups, row, task)
    requires Accepts(task.decisions) >= task.acceptThreshold
    ensures Constructible(row) && AcceptThreshold(row) >= 2
  {
    hide Listing, Cast, SameVotes, Accepts, RowKeys, RowTotal, Acceptable, WithinPdfLimits, StoredAcks;
    AcceptedIsAcceptable(row, task.info.participants, task.decisions);
  }

  /** Construction succeeds, with the parts the task was made of. */
  lemma CreateSucceeds(groups: Groups, row: TaskRow, task: Task, active: map<nat, Device>)
    requires task.VotingPhase? && RowBase(groups, row) && Voted(groups, row, task)
    requires Constructible(row)
    requires |active| == task.acceptThreshold >= 2
    ensures var run := CreateRun(task, active);
            && run.Some? && WellTyped(run.value) && run.value.round == 0 && !run.value.certificatesSent
            && run.value.comm == Comm(task.acceptThreshold, row.protocol, active, map[], map[])
            && run.value.context == task.context
            && run.value.info ==
                 (if row.kind.GroupTask? then task.info.(participants := SortById(task.info.participants)) else task.info)
  {
    hide Listing, Cast, SameVotes, RowKeys, SortById, RowTotal, TotalShares, WithinPdfLimits, StoredAcks;
    InfosAgree(row, task.info, task.info.participants);
  }

  /** The quorum drawn is what the stored counts stand for. */
  lemma DrawMatches(row: TaskRow, task: Task, run: Run, activations: map<Bytes, nat>, now: nat, chosen: seq<Device>)
    requires task.VotingPhase? && InfoMatches(row, task.info) && InfoMatches(row, run.info)
    requires Cast(task.info.participants, task.decisions)
        && Accepts(task.decisions) >= task.acceptThreshold == AcceptThreshold(row) >= 2
    requires Sample(Pool(task.info.participants, task.decisions, task.acceptThreshold, activations, now),
        task.acceptThreshold, chosen)
    requires run.comm.active == ActiveMap(task.info.participants, Tally(chosen))
        && run.comm.threshold == task.acceptThreshold
    ensures ActiveMatches(row.(active := Tally(chosen)), run)
  {
    hide Sample, Pool, Cast, Accepts, DistinctIds, ActiveMap, Tally, Listing, WithinShares, FirstIndex;
    var ps := task.info.participants;
    assert DistinctIds(ps) by { ListingDistinct(row.participants, ps); }
    QuorumIsAssigned(ps, task.decisions, task.acceptThreshold, activations, now, chosen);
    WithinSharesListed(row.participants, ps, run.info.participants, Tally(chosen));
    ActiveOfListing(row.participants, ps, run.info.participants, Tally(chosen));
  }

  /** The running task made for an accepted one. */
  lemma AcceptedCreates(groups: Groups, row: TaskRow, task: Task, activations: map<Bytes, nat>, now: nat,
      chosen: seq<Device>)
    requires task.VotingPhase? && RowBase(groups, row) && Sound(row) && Voted(groups, row, task)
    requires Accepts(task.decisions) >= task.acceptThreshold
    requires Sample(Pool(task.info.participants, task.decisions, task.acceptThreshold, activations, now),
        task.acceptThreshold, chosen)
    ensures var run := CreateRun(task, ActiveMap(task.info.participants, Tally(chosen)));
            && run.Some? && WellTyped(run.value) && run.value.round == 0 && !run.value.certificatesSent
            && run.value.comm.input == map[] && |run.value.comm.active| == task.acceptThreshold >= 2
            && InfoMatches(row, run.value.info) && run.value.context == task.context
            && ActiveMatches(row.(active := Tally(chosen)), run.value)
            && Constructible(row)
  {
    hide Sample, Pool, Cast, Accepts, DistinctIds, ActiveMap, Tally, Listing, SameVotes, ActiveMatches, RowBase,
         CreateRun, ContextOf, Sound, Constructible;
    var ps := task.info.participants;
    AcceptedIsConstructible(groups, row, task);
    assert |ActiveMap(ps, Tally(chosen))| == task.acceptThreshold by {
      assert DistinctIds(ps) by { ListingDistinct(row.participants, ps); }
      QuorumIsAssigned(ps, task.decisions, task.acceptThreshold, activations, now, chosen);
    }
    CreateSucceeds(groups, row, task, ActiveMap(ps, Tally(chosen)));
    if row.kind.GroupTask? {
      ListingSorted(row.participants, ps);
    }
    DrawMatches(row, task, CreateRun(task, ActiveMap(ps, Tally(chosen))).value, activations, now, chosen);
  }

  /** Two rows that differ only in how far the task has come. */
  predicate SameStanding(row: TaskRow, row': TaskRow) {
    && row' == row.(round := row'.round, attempts := row'.attempts, certificatesSent := row'.certificatesSent,
                    result := row'.result, active := row'.active)
    && (row'.certificatesSent.Some? <==> row.certificatesSent.Some?)
    && (row'.result.None? ==> row.result.None?)
    && (row.round >= 1 ==> row'.round >= 1)
    && (row.certificatesSent == Some(true) ==> row'.certificatesSent == Some(true))
  }

  lemma StandingKeeps(groups: Groups, row: TaskRow, row': TaskRow)
    requires RowBase(groups, row) && SameStanding(row, row')
    ensures RowBase(groups, row') && ContextOf(groups, row') == ContextOf(groups, row)
    ensures RowTotal(row') == RowTotal(row) && AcceptThreshold(row') == AcceptThreshold(row)
    ensures (Startable(row') <==> Startable(row)) && (Sound(row') <==> Sound(row))
    ensures (Constructible(row') <==> Constructible(row))
    ensures AcceptedRow(row') <==> AcceptedRow(row)
  {
  }

  /** An accepted task that has just been constructed. */
  ghost predicate Created(groups: Groups, row: TaskRow, run: Run)
    requires RowBase(groups, row)
  {
    && WellTyped(run) && run.round == 0 && !run.certificatesSent && run.comm.active != map[]
    && InfoMatches(row, run.info) && run.context == ContextOf(groups, row) && ActiveMatches(row, run)
    && row.result.None? && row.round == 0 && AcceptedRow(row) && (row.kind.GroupTask? ==> Startable(row))
  }

  lemma InitialisedMatches(env: Env, groups: Groups, row: TaskRow, row': TaskRow, run: Run, helper: Helper)
    requires ValidEnv(env) && RowBase(groups, row) && Created(groups, row, run) && !Initialize(run, helper).1.Failed?
    requires row' == (if row.kind.GroupTask? then row.(certificatesSent := Some(true)) else row.(round := 1))
    ensures Matches(env, groups, row', RunningPhase(Initialize(run, helper).0))
  {
    hide Listing, RunOk, RowBase, AcceptedRow, Startable, ContextOf, AcceptThreshold, Initialize, WithinShares,
         ActiveMap;
    assert row.certificatesSent.Some? <==> row.kind.GroupTask? by { CertificatesIffGroup(groups, row); }
    StandingKeeps(groups, row, row');
    InitializeOk(env, run, helper);
    assert row.kind.GroupTask? <==> run.info.kind.GroupTask?;
    var run' := Initialize(run, helper).0;
    assert row.kind.GroupTask? || !run'.certificatesSent by {
      if !row.kind.GroupTask? { InitializeKeepsCertificates(run, helper); }
    }
  }

  lemma InitializeKeepsCertificates(run: Run, helper: Helper)
    requires !run.info.kind.GroupTask?
    ensures Initialize(run, helper).0.certificatesSent == run.certificatesSent
  {
  }

  lemma CertificatesIffGroup(groups: Groups, row: TaskRow)
    requires RowBase(groups, row)
    ensures row.certificatesSent.Some? <==> row.kind.GroupTask?
  {
  }

  /** Starting an accepted task stores what it starts with. */
  lemma StartRunKeeps(env: Env, groups: Groups, row: TaskRow, task: Task, run: Run, helper: Helper)
    requires ValidEnv(env) && RowBase(groups, row) && Created(groups, row, run)
    ensures var (slot, reply) := StartRun(row, task, run, helper);
            && Matches(env, groups, slot.row, slot.task) && reply == Done && SameStanding(row, slot.row)
  {
    hide Listing, RunOk, AcceptedRow, Startable, ContextOf, Initialize, ActiveMatches, RunningMatches, RowBase;
    assert row.certificatesSent.Some? <==> row.kind.GroupTask? by { CertificatesIffGroup(groups, row); }
    assert row.kind == run.info.kind;
    InitializeOk(env, run, helper);
    var (run', u) := Initialize(run, helper);
    if u.Failed? {
      var row' := row.(result := Some(Failure(u.reason)));
      StandingKeeps(groups, row, row');
    } else if row.kind.GroupTask? {
      InitialisedMatches(env, groups, row, row.(certificatesSent := Some(true)), run, helper);
    } else {
      InitialisedMatches(env, groups, row, row.(round := 1), run, helper);
    }
  }

  lemma SettleKeepsMatches(env: Env, groups: Groups, row: TaskRow, task: Task,
                           activations: map<Bytes, nat>, now: nat, chosen: seq<Device>, helper: Helper)
    requires ValidEnv(env) && task.VotingPhase? && RowBase(groups, row) && Sound(row) && Voted(groups, row, task)
    requires MayDraw(task, activations, now, chosen)
    ensures var (slot', reply) := Settle(row, task, chosen, helper);
            && Matches(env, groups, slot'.row, slot'.task) && Sound(slot'.row) && reply == Done
  {
    hide Listing, Cast, SameVotes, RowBase, ContextOf, Accepts, Rejects, Sound, StoredVotes, Sample, Pool,
         RunningMatches, CreateRun, StartRun, Tally, ActiveMap, TotalShares;
    InfosAgree(row, task.info, task.info.participants);
    SameVotesTally(task.decisions, row.participants);
    var verdict := Verdict(task.decisions, RowTotal(row), task.acceptThreshold);
    if verdict.Declined? {
      StandingKeeps(groups, row, row.(result := Some(Failure("Task declined"))));
    } else if verdict.Accepted? {
      AcceptKeepsMatches(env, groups, row, task, activations, now, chosen, helper);
    }
  }

  /** A vote keeps a sound task matched, whatever it decides. */
  lemma DecideKeepsMatches(env: Env, groups: Groups, slot: Slot, id: Bytes, accept: bool,
                           activations: map<Bytes, nat>, now: nat, chosen: seq<Device>, helper: Helper)
    requires ValidEnv(env) && Matches(env, groups, slot.row, slot.task) && Sound(slot.row)
    requires Draws(slot, id, accept, activations, now, chosen)
    ensures var (slot', reply) := Decide(slot, id, accept, chosen, helper);
            && Matches(env, groups, slot'.row, slot'.task) && Sound(slot'.row)
            && (reply == Done || reply == Rejected)
  {
    hide Listing, Cast, SameVotes, RowBase, ContextOf, Sound, Settle, MayDraw, StoreDecision, Verdict;
    if slot.task.VotingPhase? && id in IdSet(slot.task.info.participants) {
      VoteIsRecorded(groups, slot, id, accept);
      DecisionKeepsRow(groups, slot.row, id, accept);
      SettleKeepsMatches(env, groups, StoreDecision(slot.row, id, accept), WithVote(slot.task, id, accept),
                         activations, now, chosen, helper);
    }
  }

  lemma AcceptKeepsMatches(env: Env, groups: Groups, row: TaskRow, task: Task,
                           activations: map<Bytes, nat>, now: nat, chosen: seq<Device>, helper: Helper)
    requires ValidEnv(env) && task.VotingPhase? && RowBase(groups, row) && Sound(row) && Voted(groups, row, task)
    requires Accepts(task.decisions) >= task.acceptThreshold
    requires Sample(Pool(task.info.participants, task.decisions, task.acceptThreshold, activations, now),
        task.acceptThreshold, chosen)
    ensures var run := CreateRun(task, ActiveMap(task.info.participants, Tally(chosen)));
            && run.Some?
            && var (slot, reply) := StartRun(StoreActive(row, Tally(chosen)), task, run.value, helper);
               Matches(env, groups, slot.row, slot.task) && reply == Done && Sound(slot.row)
  {
    hide Listing, Cast, RowBase, ContextOf, Accepts, Sound, Sample, Pool, CreateRun, StartRun, Tally, ActiveMap,
         ActiveMatches, Startable, Matches, StoredVotes;
    AcceptedCreates(groups, row, task, activations, now, chosen);
    SameVotesTally(task.decisions, row.participants);
    var row' := StoreActive(row, Tally(chosen));
    assert row' == row.(active := Tally(chosen)) by { assert Tally(chosen) + map[] == Tally(chosen); }
    StandingKeeps(groups, row, row');
    var run := CreateRun(task, ActiveMap(task.info.participants, Tally(chosen))).value;
    StartRunKeeps(env, groups, row', task, run, helper);
    StandingKeeps(groups, row', StartRun(row', task, run, helper).0.row);
  }

  // ----------------------------------------------------------------- updating

  /** What carries over from one state of a running task to the next. */
  lemma RunningCarries(env: Env, groups: Groups, row: TaskRow, run: Run, row': TaskRow, run': Run)
    requires RowBase(groups, row) && RunningMatches(env, groups, row, run)
    requires SameStanding(row, row') && row'.active == row.active && row'.certificatesSent == row.certificatesSent
    requires row'.result.None? && row'.attempts == run'.info.attempts
    requires SameTask(run, run') && run'.certificatesSent == run.certificatesSent
    requires RunOk(env, run') && RoundMatches(env, row', run') && (run'.round >= run.round || run'.round == 1)
    ensures Matches(env, groups, row', RunningPhase(run'))
  {
    hide Listing, RunOk, RowBase, AcceptedRow, Startable, ContextOf, AcceptThreshold, WithinShares, ActiveMap;
    StandingKeeps(groups, row, row');
  }

  lemma FailingCarries(env: Env, groups: Groups, row: TaskRow, run: Run, row': TaskRow, run': Run, reason: string)
    requires RowBase(groups, row) && RunningMatches(env, groups, row, run)
    requires SameStanding(row, row') && row'.result == Some(Failure(reason)) && row'.attempts == run'.info.attempts
    requires SameTask(run, run')
    ensures Matches(env, groups, row', FailedPhase(run'.info, reason))
  {
    hide Listing, RunOk, RowBase, AcceptedRow, Startable, ContextOf, ActiveMatches;
    StandingKeeps(groups, row, row');
  }

  /** Groups are only ever added. */
  ghost predicate Extends(groups: Groups, groups': Groups) {
    forall id | id in groups :: id in groups' && groups'[id] == groups[id]
  }

  lemma MatchesExtends(env: Env, groups: Groups, groups': Groups, row: TaskRow, task: Task)
    requires Matches(env, groups, row, task) && Extends(groups, groups')
    ensures Matches(env, groups', row, task)
  {
    hide Listing, RowKeys, RunOk, ActiveMatches, Accepts, Rejects, StoredVotes, GroupOk, Cast;
  }

  /** A new group is usable and describes the task that established it. */
  lemma EstablishedGroup(groups: Groups, row: TaskRow, run: Run, g: Group)
    requires RowBase(groups, row) && row.kind.GroupTask? && Startable(row)
    requires InfoMatches(row, run.info) && run.context == GroupContext(row.threshold) && run.protocol == row.protocol
    requires GroupMadeBy(run, g)
    ensures GroupOk(NewGroup(g, row)) && GroupOf(g.id, NewGroup(g, row)) == g
  {
    ListingFacts(row.participants, run.info.participants);
    assert RowWeights(row.participants) == map id | id in People(row.participants) :: People(row.participants)[id].shares;
    hide Listing, MapSum, SupportedPair, CheckThreshold;
  }

  lemma GroupRunParts(env: Env, groups: Groups, row: TaskRow, run: Run)
    requires RowBase(groups, row) && RunningMatches(env, groups, row, run)
    ensures AcceptedRow(row) && row.kind == run.info.kind && row.result.None? && InfoMatches(row, run.info)
        && row.attempts == run.info.attempts
    ensures row.kind.GroupTask? ==>
          Startable(row) && run.context == GroupContext(row.threshold) && run.protocol == row.protocol
  {
    hide Listing, DeviceClosed, RoundReceived, ActiveMatches, AcceptedRow, Startable;
  }

  lemma OpenHasNoAcks(groups: Groups, row: TaskRow)
    requires RowBase(groups, row) && row.result.None?
    ensures StoredAcks(row.participants) == {}
  {
    hide RowKeys, OfGroup, StoredAcks;
  }

  lemma FinishedCarries(env: Env, groups: Groups, row: TaskRow, info: TaskInfo, row': TaskRow, result: TaskResult)
    requires RowBase(groups, row) && InfoMatches(row, info) && row.result.None? && AcceptedRow(row)
    requires SameStanding(row, row') && row'.result == Some(Success(ResultBytes(result))) && row'.attempts == row.attempts
    requires if row.kind.GroupTask?
             then result.GroupEstablished? && result.group.id in groups
                 && result.group == GroupOf(result.group.id, groups[result.group.id])
                  && groups[result.group.id].participants == People(row.participants)
             else result == ResultOf(row.kind, ResultBytes(result))
    ensures Matches(env, groups, row', FinishedPhase(info, result, {}))
  {
    hide Listing, RowBase, GroupOf, ResultBytes, AcceptedRow, StoredAcks, People, ResultOf;
    OpenHasNoAcks(groups, row);
    StandingKeeps(groups, row, row');
  }

  lemma RowBaseExtends(groups: Groups, groups': Groups, row: TaskRow)
    requires RowBase(groups, row) && Extends(groups, groups')
    ensures RowBase(groups', row)
  {
  }

  lemma FinishKeepsMatches(env: Env, groups: Groups, row: TaskRow, run: Run, run': Run, round: nat, result: TaskResult)
    requires RowBase(groups, row) && RunningMatches(env, groups, row, run)
    requires SameTask(run, run') && run'.info == run.info && run'.certificatesSent == run.certificatesSent
        && RunOk(env, run')
    requires round == run'.round >= run.round && round >= 1 && ResultMadeBy(run, result)
    ensures var (slot, groups', reply) := Finish(groups, row, run', round, result);
            && Matches(env, groups', slot.row, slot.task) && Extends(groups, groups') && SameStanding(row, slot.row)
            && (forall id | id in groups' && id !in groups :: GroupOk(groups'[id]))
            && (reply == Done || reply == Rejected)
  {
    hide RunOk, GroupOk, NewGroup, Startable, RunningMatches, RowBase, InfoMatches, Matches, GroupMadeBy, AcceptedRow;
    GroupRunParts(env, groups, row, run);
    var row' := row.(round := round);
    var done := row'.(result := Some(Success(ResultBytes(result))));
    if !result.GroupEstablished? {
      FinishedCarries(env, groups, row, run.info, done, result);
    } else if result.group.id == [] || result.group.id in groups {
      RunningCarries(env, groups, row, run, row', run');
    } else {
      EstablishedGroup(groups, row, run, result.group);
      NewGroupPeople(result.group, row);
      var groups' := groups[result.group.id := NewGroup(result.group, row)];
      RowBaseExtends(groups, groups', row);
      FinishedCarries(env, groups', row, run.info, done, result);
    }
  }

  lemma NewGroupPeople(g: Group, row: TaskRow)
    ensures NewGroup(g, row).participants == People(row.participants)
  {
  }

  /** The stored round follows the live one, but for a final step that did not go
      through. */
  lemma RoundFollows(env: Env, row: TaskRow, run: Run, device: Bytes, msgs: seq<ClientMessage>, order: seq<nat>,
      helper: Helper)
    requires ValidEnv(env) && RunOk(env, run) && RoundMatches(env, row, run)
    requires Enumerates(order, AfterReceiving(run, device, msgs).comm.input.Keys)
    ensures var (run', u) := Update(env, run, device, msgs, order, helper);
            && (u == Listen || u == Refused || u == Panicked ==> RoundMatches(env, row, run'))
            && (u.NextRound? ==> RoundMatches(env, row.(round := u.round), run'))
  {
    hide Update, RunOk, Enumerates, FinalFrom, RoundReceived;
    UpdateOk(env, run, device, msgs, order, helper);
    GatheringKeepsTask(run, device, msgs);
    hide AfterReceiving;
  }

  /** An update keeps a sound task matched and adds at most a usable group. */
  lemma UpdateKeepsMatches(env: Env, groups: Groups, slot: Slot, device: Bytes, msgs: seq<ClientMessage>,
                           attempt: nat, order: seq<nat>, helper: Helper)
    requires ValidEnv(env) && Matches(env, groups, slot.row, slot.task) && Applies(slot.task, device, msgs, order)
    ensures var (slot', groups', reply) := UpdateTask(env, groups, slot, device, msgs, attempt, order, helper);
            && Matches(env, groups', slot'.row, slot'.task) && Extends(groups, groups')
                && SameStanding(slot.row, slot'.row)
            && (forall id | id in groups' && id !in groups :: GroupOk(groups'[id]))
            && reply != Impossible
  {
    hide Matches, RunOk, RowBase, Finish, Update, Applies, RunningMatches, RoundMatches, GroupOk, FinalMishap,
         AfterReceiving, Enumerates, DeviceClosed, ResultMadeBy;
    if slot.task.RunningPhase? && attempt == slot.task.run.info.attempts {
      var row, run := slot.row, slot.task.run;
      RunningParts(env, groups, row, run);
      AppliesParts(run, device, msgs, order);
      UpdateOk(env, run, device, msgs, order, helper);
      RoundFollows(env, row, run, device, msgs, order, helper);
      var (run', u) := Update(env, run, device, msgs, order, helper);
      match u
      case Listen => RunningCarries(env, groups, row, run, row, run');
      case NextRound(r) => RunningCarries(env, groups, row, run, row.(round := r), run');
      case Failed(reason) => FailingCarries(env, groups, row, run, row.(result := Some(Failure(reason))), run', reason);
      case Finished(r, result) =>
        UpdateResult(env, run, device, msgs, order, helper);
        FinishKeepsMatches(env, groups, row, run, run', r, result);
      case Refused => RunningCarries(env, groups, row, run, row, run');
      case Panicked => RunningCarries(env, groups, row, run, row, run');
    }
  }

  lemma RunningParts(env: Env, groups: Groups, row: TaskRow, run: Run)
    requires Matches(env, groups, row, RunningPhase(run))
    ensures RowBase(groups, row) && RunningMatches(env, groups, row, run)
    ensures RunOk(env, run) && RoundMatches(env, row, run) && row.result.None? && row.attempts == run.info.attempts
  {
  }

  lemma AppliesParts(run: Run, device: Bytes, msgs: seq<ClientMessage>, order: seq<nat>)
    requires Applies(RunningPhase(run), device, msgs, order)
    ensures DeviceClosed(run.comm) && Enumerates(order, AfterReceiving(run, device, msgs).comm.input.Keys)
  {
  }

  // ------------------------------------------------------ restarting, acknowledging

  /** A restart keeps a running task matched: both sides count the attempt and
      begin at round 1 again. */
  lemma RestartKeepsMatches(env: Env, groups: Groups, slot: Slot, helper: Helper)
    requires ValidEnv(env) && Matches(env, groups, slot.row, slot.task)
    ensures var (slot', reply) := RestartTask(slot, helper);
            && Matches(env, groups, slot'.row, slot'.task) && SameStanding(slot.row, slot'.row)
            && (reply == Done || reply == Rejected)
  {
    hide Matches, RunOk, RowBase, Restart, RunningMatches;
    if slot.task.RunningPhase? {
      var row := slot.row.(attempts := slot.row.attempts + 1);
      RunningParts(env, groups, slot.row, slot.task.run);
      RestartOk(env, slot.task.run, helper);
      var (run, u) := Restart(slot.task.run, helper);
      match u
      case NextRound(r) => RunningCarries(env, groups, slot.row, slot.task.run, row.(round := r), run);
      case Failed(reason) => FailingCarries(env, groups, slot.row, slot.task.run,
          row.(result := Some(Failure(reason))), run, reason);
    }
  }

  lemma StoreAckKeeps(row: TaskRow, id: Bytes)
    ensures var row' := StoreAck(row, id);
            && row' == row.(participants := row'.participants)
            && row'.participants.Keys == row.participants.Keys
            && RowWeights(row'.participants) == RowWeights(row.participants)
            && People(row'.participants) == People(row.participants)
            && StoredVotes(row'.participants) == StoredVotes(row.participants)
            && (forall ps :: Listing(row'.participants, ps) <==> Listing(row.participants, ps))
            && (RowKeys(row'.participants) <==> RowKeys(row.participants))
            && StoredAcks(row'.participants) == StoredAcks(row.participants) + ({id} * row.participants.Keys)
  {
    hide ToI8;
    var rows, rows' := row.participants, StoreAck(row, id).participants;
    assert forall d | d in rows :: rows'[d] == rows[d].(acknowledged := rows'[d].acknowledged);
  }

  /** An acknowledgement keeps a task matched; it changes no one's vote. */
  lemma AcknowledgeKeepsMatches(env: Env, groups: Groups, slot: Slot, id: Bytes)
    requires Matches(env, groups, slot.row, slot.task)
    ensures var (slot', reply) := Acknowledge(slot, id);
            && Matches(env, groups, slot'.row, slot'.task) && (Sound(slot'.row) <==> Sound(slot.row))
            && (reply == Done || reply == Rejected)
  {
    hide StoreAck, Listing, RowKeys, MapSum, SupportedPair, CheckThreshold, RowWeights, People, StoredAcks,
         StoredVotes, RunningMatches, VotingMatches, GroupOk, GroupOf;
    StoreAckKeeps(slot.row, id);
  }

  // ----------------------------------------------------------- opening messages

  lemma GroupParties(env: Env, groups: Groups, row: TaskRow, run: Run)
    requires RowBase(groups, row) && RunningMatches(env, groups, row, run) && row.kind.GroupTask?
    ensures TotalShares(run.info.participants) == |Indices(run.comm)| && run.context == GroupContext(row.threshold)
    ensures run.protocol == row.protocol && (row.protocol.Musig2? ==> row.threshold == |Indices(run.comm)|)
  {
    hide Listing, RunOk, AcceptedRow, TotalShares, RowTotal, ActiveMap, WithinShares, RowBase, ContextOf, Shift;
    GroupRunParts(env, groups, row, run);
    InfosAgree(row, run.info, run.info.participants);
    assert |run.comm.active.Keys| == |run.comm.active|;
  }

  /** Every share of a group task is told its own index, the number of shares taking
      part, and the threshold that was asked for, whatever the protocol. */
  lemma GroupFirstMessages(env: Env, groups: Groups, row: TaskRow, run: Run, j: nat)
    requires RowBase(groups, row) && RunningMatches(env, groups, row, run)
    requires row.kind.GroupTask? && j in Indices(run.comm)
    ensures OutputAt(Started(run).comm, j) == Some(ProtocolGroupInit(row.protocol, j, |Indices(run.comm)|, row.threshold))
  {
    hide RowBase, RunningMatches, TotalShares, Indices;
    GroupParties(env, groups, row, run);
  }

  /** Every share of a threshold task is told its own index, the data, and the same
      ascending list of all the shares that are told anything. */
  lemma ThresholdFirstMessages(run: Run, j: nat)
    requires run.context.ThresholdContext? && j in Indices(run.comm)
    ensures var out := Started(run).comm.output;
            && j in out && out[j].ProtocolInit? && out[j].protocol == run.protocol && out[j].index == j
            && Increasing(out[j].indices) && (forall i :: i in out[j].indices <==> i in out)
            && out[j].data == (if run.preprocessed.Some? then run.preprocessed.value else run.context.data)
  {
    hide Shift, Ascend, Increasing;
  }

  // ------------------------------------------------------------- accepted is started

  lemma StartedRuns(run: Run, row: TaskRow, task: Task, helper: Helper)
    requires run.round == 0
    ensures var task' := StartRun(row, task, run, helper).0.task;
            if run.info.kind.PdfTask? && !HashMade(helper) then task' == FailedPhase(run.info, StartFailure(helper))
            else
              && task'.RunningPhase? && task'.run.comm.active == run.comm.active && task'.run.comm.input == map[]
              && task'.run.round == (if run.info.kind.GroupTask? then 0 else 1)
  {
    hide InitMessage, Certificates, Indices;
  }

  /** The vote that accepts a sound task starts it, in its certificate round or its
      first one, with as many active shares as the threshold asks for; only the helper
      process of a PDF task can prevent that. */
  lemma AcceptedIsStarted(env: Env, groups: Groups, slot: Slot, id: Bytes, accept: bool,
                          activations: map<Bytes, nat>, now: nat, chosen: seq<Device>, helper: Helper)
    requires ValidEnv(env) && Matches(env, groups, slot.row, slot.task) && Sound(slot.row)
    requires slot.task.VotingPhase? && id in IdSet(slot.task.info.participants)
    requires Draws(slot, id, accept, activations, now, chosen)
    requires Accepts(WithVote(slot.task, id, accept).decisions) >= slot.task.acceptThreshold
    ensures var task := Decide(slot, id, accept, chosen, helper).0.task;
            if slot.row.kind.PdfTask? && !HashMade(helper)
            then task.FailedPhase? && task.reason == StartFailure(helper)
            else
              && task.RunningPhase? && task.run.comm.input == map[] && |task.run.comm.active| == slot.task.acceptThreshold
              && task.run.round == (if slot.row.kind.GroupTask? then 0 else 1)
  {
    hide Listing, Cast, SameVotes, RowBase, ContextOf, Sound, StoreDecision, Accepts, Sample, Pool, CreateRun,
         StartRun, Tally, ActiveMap, Rejects, TotalShares, Startable;
    VoteIsRecorded(groups, slot, id, accept);
    DecisionKeepsRow(groups, slot.row, id, accept);
    var row, task := StoreDecision(slot.row, id, accept), WithVote(slot.task, id, accept);
    AcceptedCreates(groups, row, task, activations, now, chosen);
    var run := CreateRun(task, ActiveMap(task.info.participants, Tally(chosen))).value;
    StartedRuns(run, StoreActive(row, Tally(chosen)), task, helper);
  }
}
