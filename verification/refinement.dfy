/** The cached task and its rows tell the same story after every request. */
module Refinement {
  import opened Basics
  import opened Shares
  import opened Voting
  import opened Communication
  import opened Rounds
  import opened Store
  import opened Handlers

  // ------------------------------------------------------------ facts of rows

  function RowWeights(rows: map<Bytes, ParticipantRow>): map<Bytes, nat> {
    map id | id in rows :: rows[id].shares
  }

  ghost function RowTotal(row: TaskRow): nat {
    MapSum(RowWeights(row.participants))
  }

  /** The accepting shares a task needs to start. */
  ghost function AcceptThreshold(row: TaskRow): nat {
    if row.kind.GroupTask? then RowTotal(row) else row.threshold
  }

  ghost predicate RowKeys(rows: map<Bytes, ParticipantRow>) {
    forall id | id in rows :: rows[id].device.id == id && rows[id].shares >= 1
  }

  /** A stored group can run its protocol. */
  ghost predicate GroupOk(g: GroupRow) {
    && SupportedPair(g.protocol, g.keyType) && (g.protocol.Gg18? ==> g.certificate.Some?)
    && (forall id | id in g.participants :: g.participants[id].device.id == id && g.participants[id].shares >= 1)
    && CheckThreshold(g.protocol, g.threshold, MapSum(map id | id in g.participants :: g.participants[id].shares))
  }

  /** What a task row inherits from its group. */
  ghost predicate OfGroup(groups: Groups, row: TaskRow) {
    && row.groupId.Some? && row.groupId.value in groups && row.data.Some?
    && row.kind == ThresholdKind(row.keyType)
    && var g := groups[row.groupId.value];
       && GroupOk(g)
       && g.threshold == row.threshold && g.protocol == row.protocol && g.keyType == row.keyType
       && g.participants == People(row.participants)
  }

  ghost predicate RowBase(groups: Groups, row: TaskRow) {
    && RowKeys(row.participants)
    && 1 <= row.threshold <= RowTotal(row)
    && (row.certificatesSent.Some? <==> row.kind.GroupTask?)
    && (row.result.None? ==> StoredAcks(row.participants) == {})
    && (if row.kind.GroupTask? then row.groupId.None? else OfGroup(groups, row))
  }

  ghost function ContextOf(groups: Groups, row: TaskRow): Context
    requires RowBase(groups, row)
  {
    if row.kind.GroupTask? then GroupContext(row.threshold)
    else ThresholdContext(GroupOf(row.groupId.value, groups[row.groupId.value]), row.data.value)
  }

  /** A group request whose parameters the protocol accepts. */
  ghost predicate Startable(row: TaskRow) {
    SupportedPair(row.protocol, row.keyType) && CheckThreshold(row.protocol, row.threshold, RowTotal(row))
  }

  /** The votes can accept the task: its participants' best votes reach the threshold. */
  ghost predicate Acceptable(row: TaskRow) {
    MapSum(BestVotes(RowWeights(row.participants))) >= AcceptThreshold(row)
  }

  /** The task, once accepted, is one the server can construct. */
  ghost predicate Constructible(row: TaskRow) {
    match row.kind
    case GroupTask => Startable(row)
    case PdfTask => row.data.Some? && WithinPdfLimits(row.name, row.data.value)
    case _ => true
  }

  /** The requests for which memory and database never part: all but those that can be
      accepted and then not be constructed. */
  ghost predicate Sound(row: TaskRow) {
    Acceptable(row) ==> Constructible(row)
  }

  predicate SmallRow(row: TaskRow) {
    forall id | id in row.participants :: row.participants[id].shares <= 127
  }

  /** All shares of a group request can be won if and only if nobody holds more than
      127 of them. */
  lemma GroupAcceptableIffSmall(row: TaskRow)
    requires row.kind.GroupTask?
    ensures Acceptable(row) <==> SmallRow(row)
  {
    hide BestVote;
    var w := RowWeights(row.participants);
    forall d | d in w ensures BestVote(w[d]) <= w[d] && (BestVote(w[d]) == w[d] <==> w[d] <= 127) {
      BestVoteBound(w[d]);
    }
    MapSumSplit(BestVotes(w), map[], w);
    if !SmallRow(row) {
      var d :| d in row.participants && row.participants[d].shares > 127;
      MapSumRemove(w, d);
      MapSumRemove(BestVotes(w), d);
      MapSumSplit(BestVotes(w) - {d}, map[], w - {d});
    }
  }

  lemma ListingFacts(rows: map<Bytes, ParticipantRow>, ps: seq<Participant>)
    requires Listing(rows, ps)
    ensures Weights(ps) == RowWeights(rows) && TotalShares(ps) == MapSum(RowWeights(rows))
    ensures forall id | id in rows :: SharesOf(ps, id) == rows[id].shares
  {
    forall id | id in rows ensures SharesOf(ps, id) == rows[id].shares {
      var p :| p in ps && p.device.id == id;
      SharesOfMember(ps, p);
    }
    assert Weights(ps) == RowWeights(rows);
    WeightsSum(ps);
  }

  lemma ListingByPeople(rows: map<Bytes, ParticipantRow>, rows': map<Bytes, ParticipantRow>, ps: seq<Participant>)
    requires People(rows) == People(rows') && Listing(rows, ps)
    ensures Listing(rows', ps)
  {
    assert rows.Keys == People(rows).Keys && rows'.Keys == People(rows').Keys;
    forall p | p in ps ensures p.device.id in rows' && rows'[p.device.id].device == p.device
        && rows'[p.device.id].shares == p.shares {
      assert People(rows)[p.device.id] == People(rows')[p.device.id];
    }
  }

  lemma ListingUnique(rows: map<Bytes, ParticipantRow>, ps: seq<Participant>, qs: seq<Participant>)
    requires Listing(rows, ps) && Listing(rows, qs)
    ensures multiset(ps) == multiset(qs)
  {
    forall p ensures multiset(ps)[p] == multiset(qs)[p] {
      ListingMember(rows, ps, p);
      ListingMember(rows, qs, p);
      OccursOnce(ps, p);
      OccursOnce(qs, p);
    }
  }

  lemma ListingMember(rows: map<Bytes, ParticipantRow>, ps: seq<Participant>, p: Participant)
    requires Listing(rows, ps)
    ensures p in ps <==>
          p.device.id in rows && rows[p.device.id].device == p.device && rows[p.device.id].shares == p.shares
  {
    if p.device.id in rows && rows[p.device.id].device == p.device && rows[p.device.id].shares == p.shares {
      var q :| q in ps && q.device.id == p.device.id;
      assert q == p;
    }
  }

  lemma ListingSorted(rows: map<Bytes, ParticipantRow>, ps: seq<Participant>)
    requires Listing(rows, ps)
    ensures Listing(rows, SortById(ps))
  {
    SortedListing(ps);
  }

  // ------------------------------------------------------------- votes in rows

  /** Live and stored votes differ at most in how a missing vote is written. */
  ghost predicate SameVotes(votes: map<Bytes, int>, rows: map<Bytes, ParticipantRow>) {
    && Positive(votes) == Positive(StoredVotes(rows))
    && Negative(votes) == Negative(StoredVotes(rows))
  }

  lemma SameVotesTally(votes: map<Bytes, int>, rows: map<Bytes, ParticipantRow>)
    requires SameVotes(votes, rows)
    ensures Accepts(votes) == Accepts(StoredVotes(rows)) && Rejects(votes) == Rejects(StoredVotes(rows))
    ensures (set id | id in votes && DeviceAccepted(votes, id)) == (set id | id in StoredVotes(rows)
        && DeviceAccepted(StoredVotes(rows), id))
  {
    assert (set id | id in votes && DeviceAccepted(votes, id)) == Positive(votes).Keys;
    var stored := StoredVotes(rows);
    assert (set id | id in stored && DeviceAccepted(stored, id)) == Positive(stored).Keys;
  }

  /** Stored votes are votes of the participants. */
  lemma StoredVotesCast(rows: map<Bytes, ParticipantRow>, ps: seq<Participant>)
    requires Listing(rows, ps)
    ensures Cast(ps, StoredVotes(rows))
  {
    ListingFacts(rows, ps);
    forall id | id in rows ensures RowVote(rows[id]) in {0, Vote(SharesOf(ps, id), true), Vote(SharesOf(ps, id), false)} {
      Voting.StoredVote(rows[id].shares);
    }
  }

  lemma StoreDecisionKeeps(row: TaskRow, id: Bytes, accept: bool)
    ensures var row' := StoreDecision(row, id, accept);
            && row' == row.(participants := row'.participants)
            && row'.participants.Keys == row.participants.Keys
            && RowWeights(row'.participants) == RowWeights(row.participants)
            && People(row'.participants) == People(row.participants)
            && (forall ps :: Listing(row'.participants, ps) <==> Listing(row.participants, ps))
            && (RowKeys(row'.participants) <==> RowKeys(row.participants))
            && StoredAcks(row'.participants) == StoredAcks(row.participants)
  {
  }

  lemma SidesAfterUpdate(v: map<Bytes, int>, w: map<Bytes, int>, id: Bytes, x: int)
    requires Positive(v) == Positive(w) && Negative(v) == Negative(w)
    ensures Positive(v[id := x]) == Positive(w[id := x]) && Negative(v[id := x]) == Negative(w[id := x])
  {
    UpdatePositive(v, id, x);
    UpdatePositive(w, id, x);
    UpdateNegative(v, id, x);
    UpdateNegative(w, id, x);
    hide Positive, Negative;
  }

  lemma UpdatePositive(v: map<Bytes, int>, id: Bytes, x: int)
    ensures Positive(v[id := x]) == if x > 0 then Positive(v)[id := x] else Positive(v) - {id}
  {
  }

  lemma UpdateNegative(v: map<Bytes, int>, id: Bytes, x: int)
    ensures Negative(v[id := x]) == if x < 0 then Negative(v)[id := -x] else Negative(v) - {id}
  {
  }

  lemma StoredAfterDecision(row: TaskRow, id: Bytes, accept: bool)
    requires id in row.participants
    ensures StoredVotes(StoreDecision(row, id, accept).participants)
            == StoredVotes(row.participants)[id := Vote(row.participants[id].shares, accept)]
  {
    Voting.StoredVote(row.participants[id].shares);
    hide ToI8;
  }

  /** Recording a vote in memory and in the row keeps the two alike. */
  lemma DecisionStored(row: TaskRow, ps: seq<Participant>, votes: map<Bytes, int>, id: Bytes, accept: bool)
    requires Listing(row.participants, ps) && SameVotes(votes, row.participants) && id in IdSet(ps)
    ensures SameVotes(Decided(ps, votes, id, accept), StoreDecision(row, id, accept).participants)
  {
    ListingFacts(row.participants, ps);
    hide Listing, Vote, Positive, Negative, StoredVotes, StoreDecision;
    StoredAfterDecision(row, id, accept);
    SidesAfterUpdate(votes, StoredVotes(row.participants), id, Vote(SharesOf(ps, id), accept));
  }

  // ------------------------------------------------------------- the invariant

  ghost predicate InfoMatches(row: TaskRow, info: TaskInfo) {
    info == InfoOf(row, info.participants) && Listing(row.participants, info.participants)
  }

  /** The live votes are the stored ones, whatever follows from them. */
  ghost predicate Voted(groups: Groups, row: TaskRow, task: Task)
    requires task.VotingPhase? && RowBase(groups, row)
  {
    && InfoMatches(row, task.info)
    && row.result.None? && row.round == 0 && row.attempts == 0 && row.active == map[]
    && row.certificatesSent != Some(true)
    && Cast(task.info.participants, task.decisions)
    && SameVotes(task.decisions, row.participants)
    && task.acceptThreshold == AcceptThreshold(row)
    && task.context == ContextOf(groups, row)
  }

  ghost predicate VotingMatches(groups: Groups, row: TaskRow, task: Task)
    requires task.VotingPhase? && RowBase(groups, row)
  {
    Voted(groups, row, task) && Verdict(task.decisions, RowTotal(row), task.acceptThreshold).Undecided?
  }

  /** The votes in the rows accepted the task. */
  ghost predicate AcceptedRow(row: TaskRow) {
    Accepts(StoredVotes(row.participants)) >= AcceptThreshold(row)
  }

  ghost predicate RoundMatches(env: Env, row: TaskRow, run: Run) {
    || row.round == run.round
    || (run.round == LastRound(env, run) + 1 && row.round == LastRound(env, run))
  }

  /** The index map in use is the one the stored counts stand for. */
  ghost predicate ActiveMatches(row: TaskRow, run: Run) {
    && WithinShares(run.info.participants, row.active)
    && run.comm.active == ActiveMap(run.info.participants, row.active)
    && |run.comm.active| >= run.comm.threshold == AcceptThreshold(row) >= 2
    && (Sound(row) ==> |run.comm.active| == run.comm.threshold)
  }

  ghost predicate RunningMatches(env: Env, groups: Groups, row: TaskRow, run: Run)
    requires RowBase(groups, row)
  {
    && InfoMatches(row, run.info)
    && RunOk(env, run)
    && row.result.None? && AcceptedRow(row)
    && ActiveMatches(row, run)
    && run.context == ContextOf(groups, row)
    && RoundMatches(env, row, run)
    && (if row.kind.GroupTask? then row.certificatesSent == Some(true) && Startable(row)
        else !run.certificatesSent && run.round >= 1)
  }

  ghost predicate FinishedMatches(groups: Groups, row: TaskRow, task: Task)
    requires task.FinishedPhase?
  {
    && InfoMatches(row, task.info)
    && row.result == Some(Success(ResultBytes(task.result))) && AcceptedRow(row)
    && StoredAcks(row.participants) == task.acknowledgements * row.participants.Keys
    && (if row.kind.GroupTask? then
          && task.result.GroupEstablished?
          && var id := task.result.group.id;
             id in groups && task.result.group == GroupOf(id, groups[id])
                 && groups[id].participants == People(row.participants)
        else task.result == ResultOf(row.kind, ResultBytes(task.result)))
  }

  ghost predicate Matches(env: Env, groups: Groups, row: TaskRow, task: Task) {
    && RowBase(groups, row)
    && match task
       case VotingPhase(_, _, _, _) => VotingMatches(groups, row, task)
       case RunningPhase(run) => RunningMatches(env, groups, row, run)
       case DeclinedPhase(info, a, r) =>
         && InfoMatches(row, info)
         && row.result.Some? && row.result.value.Failure? && row.attempts == 0
         && a == Accepts(StoredVotes(row.participants)) && r == Rejects(StoredVotes(row.participants))
         && r >= RowTotal(row) - AcceptThreshold(row) + 1
       case FinishedPhase(_, _, _) => FinishedMatches(groups, row, task)
       case FailedPhase(info, reason) =>
         InfoMatches(row, info) && row.result == Some(Failure(reason)) && AcceptedRow(row)
  }

  // --------------------------------------------------- matching is agreeing

  lemma InfosAgree(row: TaskRow, info: TaskInfo, ps: seq<Participant>)
    requires InfoMatches(row, info) && Listing(row.participants, ps)
    ensures ViewInfo(info) == ViewInfo(InfoOf(row, ps))
    ensures TotalShares(ps) == RowTotal(row) == TotalShares(info.participants)
    ensures IdSet(info.participants) == row.participants.Keys == IdSet(ps)
  {
    ListingUnique(row.participants, ps, info.participants);
    ListingFacts(row.participants, ps);
    ListingFacts(row.participants, info.participants);
  }

  /** A task that was accepted keeps its rejecting shares below the threshold
      that would decline it; a group task has none. */
  lemma AcceptedNotDeclined(groups: Groups, row: TaskRow, ps: seq<Participant>)
    requires RowBase(groups, row) && Listing(row.participants, ps) && AcceptedRow(row)
    ensures Rejects(StoredVotes(row.participants)) < RowTotal(row) - AcceptThreshold(row) + 1
    ensures row.kind.GroupTask? ==> Rejects(StoredVotes(row.participants)) == 0
  {
    StoredVotesCast(row.participants, ps);
    TallyBound(ps, StoredVotes(row.participants));
    ListingFacts(row.participants, ps);
  }

  lemma VotingAgrees(env: Env, groups: Groups, row: TaskRow, task: Task, ps: seq<Participant>)
    requires task.VotingPhase? && RowBase(groups, row) && VotingMatches(groups, row, task)
        && Listing(row.participants, ps)
    ensures AgreeOn(env, groups, row, task, ps)
    ensures Rebuild(groups, row, ps) == Some(VotingPhase(InfoOf(row, ps), StoredVotes(row.participants),
        AcceptThreshold(row), task.context))
  {
    hide Listing, Cast, SameVotes, Accepts, Rejects, TotalShares, StoredVotes, RowKeys;
    InfosAgree(row, task.info, ps);
    SameVotesTally(task.decisions, row.participants);
  }

  /** The running task made from the rows, with empty buffers. */
  ghost function Rehydrated(row: TaskRow, run: Run, ps: seq<Participant>): Run {
    run.(info := InfoOf(row, ps), comm := run.comm.(input := map[], output := map[]), round := row.round,
        preprocessed := None)
  }

  /** The live protocol object is the one the stored key type stands for. */
  lemma ProtocolMatches(env: Env, groups: Groups, row: TaskRow, run: Run)
    requires RowBase(groups, row) && RunningMatches(env, groups, row, run)
    ensures var p := if run.context.GroupContext? then row.protocol else run.context.group.protocol;
            var k := if run.context.GroupContext? then row.keyType else run.context.group.keyType;
            && run.protocol == run.comm.protocol == row.protocol == p && SupportedPair(p, k)
            && run.operation == (if row.kind.GroupTask? then Keygen else if k.DecryptKey? then Decrypt else Sign)
            && run.certificatesSent == (row.certificatesSent == Some(true))
            && (row.kind.GroupTask? ==> row.certificatesSent.Some?)
  {
    hide Listing, ActiveMap, TotalShares, RowKeys, DeviceClosed, RoundReceived, WithinShares, ActiveMatches, Accepts;
  }

  lemma ActiveRebuilt(row: TaskRow, run: Run, ps: seq<Participant>)
    requires InfoMatches(row, run.info) && ActiveMatches(row, run) && Listing(row.participants, ps)
    ensures NewComm(if row.kind.GroupTask? then TotalShares(ps) else row.threshold, run.comm.protocol, ActiveMap(ps,
        row.active))
            == Some(run.comm.(input := map[], output := map[]))
  {
    hide ActiveMap, TotalShares, WithinShares, DistinctIds;
    ListingUnique(row.participants, ps, run.info.participants);
    InfosAgree(row, run.info, ps);
    assert DistinctIds(ps) by { ListingDistinct(row.participants, ps); }
    hide Listing;
    ActiveMapForgetsOrder(ps, run.info.participants, row.active);
  }

  lemma RebuildRunIs(env: Env, groups: Groups, row: TaskRow, run: Run, ps: seq<Participant>)
    requires RowBase(groups, row) && RunningMatches(env, groups, row, run) && Listing(row.participants, ps)
    ensures RebuildRun(row, ps, run.context) == Some(Rehydrated(row, run, ps))
  {
    hide Listing, ActiveMap, TotalShares, RowKeys, RunOk, ActiveMatches, RowBase, Accepts, NewComm;
    ActiveRebuilt(row, run, ps);
    ProtocolMatches(env, groups, row, run);
  }

  lemma ListingDistinct(rows: map<Bytes, ParticipantRow>, ps: seq<Participant>)
    requires Listing(rows, ps)
    ensures DistinctIds(ps)
  {
  }

  lemma RunningAgrees(env: Env, groups: Groups, row: TaskRow, task: Task, ps: seq<Participant>)
    requires task.RunningPhase? && RowBase(groups, row) && RunningMatches(env, groups, row, task.run)
    requires Listing(row.participants, ps)
    ensures Rebuild(groups, row, ps) == Some(RunningPhase(Rehydrated(row, task.run, ps)))
    ensures AgreeOn(env, groups, row, task, ps)
  {
    hide Listing, ActiveMap, TotalShares, RowKeys, RunOk, ActiveMatches, Accepts, RebuildRun, StoredVotes;
    RebuildRunIs(env, groups, row, task.run, ps);
    InfosAgree(row, task.run.info, ps);
  }

  lemma EndedAgrees(env: Env, groups: Groups, row: TaskRow, task: Task, ps: seq<Participant>)
    requires Matches(env, groups, row, task) && (task.DeclinedPhase? || task.FailedPhase? || task.FinishedPhase?)
    requires Listing(row.participants, ps)
    ensures AgreeOn(env, groups, row, task, ps)
  {
    hide Listing, TotalShares, RowKeys, Accepts, Rejects, StoredVotes, StoredAcks, ViewInfo, OfGroup, VotingMatches,
         RunningMatches, RebuildOpen, GroupOf, AcceptedRow, RowTotal;
    InfosAgree(row, task.info, ps);
    if task.FailedPhase? {
      AcceptedNotDeclined(groups, row, ps);
    }
  }

  /** The invariant implies what the cache promises: rebuilding from the rows
      gives the task at hand. */
  lemma MatchesAgree(env: Env, groups: Groups, row: TaskRow, task: Task)
    requires Matches(env, groups, row, task)
    ensures Agree(env, groups, row, task)
  {
    forall ps | Listing(row.participants, ps) ensures AgreeOn(env, groups, row, task, ps) {
      if task.VotingPhase? {
        VotingAgrees(env, groups, row, task, ps);
      } else if task.RunningPhase? {
        RunningAgrees(env, groups, row, task, ps);
      } else {
        EndedAgrees(env, groups, row, task, ps);
      }
    }
  }
}
