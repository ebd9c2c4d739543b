/** Exactly which requests keep memory and database together. */
module Soundness {
  import opened Basics
  import opened Shares
  import opened Voting
  import opened Quorum
  import opened Communication
  import opened Rounds
  import opened Store
  import opened Handlers
  import opened Refinement
  import opened Preservation
  import opened Invariant

  /** A vote, the moment it is cast at, and the draw made if it accepts the task. */
  datatype Ballot = Ballot(
    id: Bytes, accept: bool, activations: map<Bytes, nat>, now: nat, chosen: seq<Device>, helper: Helper)

  ghost function VoteAll(slot: Slot, ballots: seq<Ballot>): Slot
    decreases |ballots|
  {
    if ballots == [] then slot
    else var b := ballots[0]; VoteAll(Decide(slot, b.id, b.accept, b.chosen, b.helper).0, ballots[1..])
  }

  /** Every draw on the way is one the server may make. */
  ghost predicate Legal(slot: Slot, ballots: seq<Ballot>)
    decreases |ballots|
  {
    ballots != [] ==>
      var b := ballots[0];
      && Draws(slot, b.id, b.accept, b.activations, b.now, b.chosen)
      && Legal(Decide(slot, b.id, b.accept, b.chosen, b.helper).0, ballots[1..])
  }

  lemma {:induction false} VotesKeepMatches(env: Env, groups: Groups, slot: Slot, ballots: seq<Ballot>)
    requires ValidEnv(env) && Matches(env, groups, slot.row, slot.task) && Sound(slot.row) && Legal(slot, ballots)
    ensures var s := VoteAll(slot, ballots); Matches(env, groups, s.row, s.task)
    decreases |ballots|
  {
    hide Matches, Sound, Draws, Decide;
    if ballots != [] {
      var b := ballots[0];
      DecideKeepsMatches(env, groups, slot, b.id, b.accept, b.activations, b.now, b.chosen, b.helper);
      VotesKeepMatches(env, groups, Decide(slot, b.id, b.accept, b.chosen, b.helper).0, ballots[1..]);
    }
  }

  // -------------------------------------------------- everybody votes to accept it

  /** The participants whose vote, cast the right way, counts for acceptance. */
  function Winnable(row: TaskRow): set<Bytes> {
    set id | id in row.participants && BestVote(row.participants[id].shares) > 0
  }

  /** Exactly `ids` have voted, each the way that counts for acceptance. */
  ghost predicate WonOver(row: TaskRow, ids: set<Bytes>) {
    && ids <= Winnable(row)
    && forall id | id in row.participants ::
         row.participants[id].decision ==
           if id in ids then Some(Vote(row.participants[id].shares, true) > 0) else None
  }

  lemma WonVote(row: TaskRow, ids: set<Bytes>, id: Bytes)
    requires WonOver(row, ids) && id in row.participants
    ensures RowVote(row.participants[id]) == if id in ids then BestVote(row.participants[id].shares) else 0
  {
    StoredVote(row.participants[id].shares);
    hide ToI8;
    assert id in ids ==> id in Winnable(row);
  }

  lemma NoRejects(row: TaskRow, ids: set<Bytes>)
    requires WonOver(row, ids)
    ensures Rejects(StoredVotes(row.participants)) == 0
  {
    hide WonOver, RowVote, BestVote;
    forall id | id in row.participants ensures RowVote(row.participants[id]) >= 0 {
      WonVote(row, ids, id);
    }
    assert Negative(StoredVotes(row.participants)) == map[];
  }

  lemma {:induction false} ZeroSum(m: map<Bytes, nat>)
    requires forall k | k in m :: m[k] == 0
    ensures MapSum(m) == 0
    decreases m.Keys
  {
    if m != map[] {
      var k :| k in m;
      MapSumRemove(m, k);
      assert (m - {k}).Keys < m.Keys;
      ZeroSum(m - {k});
    }
  }

  /** With all of them, as much is accepted as can be. */
  lemma AllWon(row: TaskRow)
    requires WonOver(row, Winnable(row))
    ensures Accepts(StoredVotes(row.participants)) == MapSum(BestVotes(RowWeights(row.participants)))
  {
    var best := BestVotes(RowWeights(row.participants));
    var votes := StoredVotes(row.participants);
    forall id | id in row.participants ensures votes[id] == best[id] {
      WonVote(row, Winnable(row), id);
    }
    hide WonOver, RowVote, BestVote, StoredVotes, BestVotes, MapSum;
    var rest := map id | id in best && best[id] == 0 :: best[id];
    ZeroSum(rest);
    assert Positive(votes).Keys + rest.Keys == best.Keys;
    MapSumSplit(Positive(votes), rest, best);
  }

  /** A draw there always is. */
  lemma SomeDraw(slot: Slot, id: Bytes, accept: bool, activations: map<Bytes, nat>, now: nat)
    returns (chosen: seq<Device>)
    ensures Draws(slot, id, accept, activations, now, chosen)
  {
    if slot.task.VotingPhase? {
      var task := WithVote(slot.task, id, accept);
      var pool := Pool(task.info.participants, task.decisions, task.acceptThreshold, activations, now);
      hide Pool, WithVote;
      var n := if task.acceptThreshold <= |pool| then task.acceptThreshold else |pool|;
      chosen := pool[..n];
      assert pool == pool[..n] + pool[n..];
    } else {
      chosen := [];
    }
  }

  lemma WonOneMore(row: TaskRow, ids: set<Bytes>, id: Bytes)
    requires WonOver(row, ids) && id in Winnable(row)
    ensures WonOver(StoreDecision(row, id, Vote(row.participants[id].shares, true) > 0), ids + {id})
    ensures Winnable(StoreDecision(row, id, Vote(row.participants[id].shares, true) > 0)) == Winnable(row)
  {
    hide BestVote, Vote;
  }

  lemma SameParticipants(row: TaskRow, row': TaskRow, ids: set<Bytes>)
    requires WonOver(row, ids) && row'.participants == row.participants
    ensures WonOver(row', ids) && Winnable(row') == Winnable(row)
  {
    hide BestVote, Vote;
  }

  lemma UnstartedFacts(env: Env, groups: Groups, row: TaskRow, task: Task)
    requires Unstarted(env, groups, row, task)
    ensures task.VotingPhase? ==> Listing(row.participants, task.info.participants)
    ensures task.VotingPhase? ==> row.participants.Keys == IdSet(task.info.participants)
    ensures task.DeclinedPhase? ==> Rejects(StoredVotes(row.participants)) >= 1
    ensures RowBase(groups, row) && Acceptable(row) && (task.VotingPhase? ==> row.result.None?)
  {
    hide Listing, Cast, SameVotes, Rejects, StoredVotes, RowKeys, Waking, Constructible;
    if task.VotingPhase? {
      InfosAgree(row.(active := map[]), task.info, task.info.participants);
    }
  }

  /** One more vote for acceptance leaves a request that cannot be constructed in its
      vote. */
  lemma AcceptingVote(env: Env, groups: Groups, slot: Slot, ids: set<Bytes>, id: Bytes,
                      activations: map<Bytes, nat>, now: nat, chosen: seq<Device>, helper: Helper)
    requires Unstarted(env, groups, slot.row, slot.task) && slot.task.VotingPhase? && CountsWithin(slot.row)
    requires WonOver(slot.row, ids) && id in Winnable(slot.row)
    requires Draws(slot, id, Vote(slot.row.participants[id].shares, true) > 0, activations, now, chosen)
    ensures var slot' := Decide(slot, id, Vote(slot.row.participants[id].shares, true) > 0, chosen, helper).0;
            && Unstarted(env, groups, slot'.row, slot'.task) && slot'.task.VotingPhase? && CountsWithin(slot'.row)
            && WonOver(slot'.row, ids + {id}) && Winnable(slot'.row) == Winnable(slot.row)
  {
    hide Unstarted, Rejects, StoredVotes, StoreDecision, WonOver, Decide, Draws, CountsWithin, Vote, BestVote, RowBase;
    var accept := Vote(slot.row.participants[id].shares, true) > 0;
    UnstartedFacts(env, groups, slot.row, slot.task);
    DecideUnstarted(env, groups, slot, id, accept, activations, now, chosen, helper);
    WonOneMore(slot.row, ids, id);
    var slot' := Decide(slot, id, accept, chosen, helper).0;
    SameParticipants(StoreDecision(slot.row, id, accept), slot'.row, ids + {id});
    NoRejects(slot'.row, ids + {id});
    UnstartedFacts(env, groups, slot'.row, slot'.task);
  }

  /** Ballots by which everyone on the list votes for acceptance. */
  lemma {:induction false} WinOver(env: Env, groups: Groups, slot: Slot, ids: set<Bytes>, rest: set<Bytes>)
    returns (ballots: seq<Ballot>)
    requires Unstarted(env, groups, slot.row, slot.task) && slot.task.VotingPhase? && CountsWithin(slot.row)
    requires WonOver(slot.row, ids) && rest <= Winnable(slot.row)
    ensures Legal(slot, ballots)
    ensures var s := VoteAll(slot, ballots);
            && Unstarted(env, groups, s.row, s.task) && s.task.VotingPhase?
            && WonOver(s.row, ids + rest) && Winnable(s.row) == Winnable(slot.row)
    decreases rest
  {
    hide Unstarted, WonOver, Decide, Draws, CountsWithin, Vote, BestVote;
    if rest == {} {
      ballots := [];
      assert ids + rest == ids;
    } else {
      var id :| id in rest;
      assert id in Winnable(slot.row);
      var accept := Vote(slot.row.participants[id].shares, true) > 0;
      var chosen := SomeDraw(slot, id, accept, map[], 0);
      var helper := Helper(None, None);
      AcceptingVote(env, groups, slot, ids, id, map[], 0, chosen, helper);
      var later := WinOver(env, groups, Decide(slot, id, accept, chosen, helper).0, ids + {id}, rest - {id});
      ballots := [Ballot(id, accept, map[], 0, chosen, helper)] + later;
      assert ballots[1..] == later;
      assert ids + {id} + (rest - {id}) == ids + rest;
    }
  }

  /** Then the rows no longer say that voting goes on. */
  lemma AllWonDisagrees(env: Env, groups: Groups, row: TaskRow, task: Task)
    requires Unstarted(env, groups, row, task) && task.VotingPhase? && WonOver(row, Winnable(row))
    ensures !Agree(env, groups, row, task)
  {
    hide Unstarted, Listing, WonOver, Accepts, Rejects, TotalShares, StoredVotes, RebuildRun, RowKeys, RowTotal,
         ViewInfo, StoredAcks, Agree, BestVotes, RowWeights, GroupOk;
    var ps := task.info.participants;
    UnstartedFacts(env, groups, row, task);
    AllWon(row);
    assert TotalShares(ps) == RowTotal(row) by { InfosAgree(row, InfoOf(row, ps), ps); }
    AgreeInstance(env, groups, row, task, ps);
  }

  lemma AgreeInstance(env: Env, groups: Groups, row: TaskRow, task: Task, ps: seq<Participant>)
    requires Listing(row.participants, ps)
    ensures Agree(env, groups, row, task) ==> AgreeOn(env, groups, row, task, ps)
  {
  }

  lemma UnsoundDisagrees(env: Env, groups: Groups, slot: Slot)
    requires Matches(env, groups, slot.row, slot.task) && slot.task.VotingPhase? && !Sound(slot.row)
    requires WonOver(slot.row, {}) && slot.row.active == map[]
    ensures exists ballots :: Legal(slot, ballots)
                              && !Agree(env, groups, VoteAll(slot, ballots).row, VoteAll(slot, ballots).task)
  {
    hide Matches, Unstarted, Sound, Legal, VoteAll, WonOver, Agree, Winnable;
    NewIsUnstarted(env, groups, slot);
    var ballots := WinOver(env, groups, slot, {}, Winnable(slot.row));
    var s := VoteAll(slot, ballots);
    assert {} + Winnable(slot.row) == Winnable(s.row);
    AllWonDisagrees(env, groups, s.row, s.task);
  }

  // ------------------------------------------------------------- the exact condition

  /** For a task nobody has voted on yet, cache and rows agree after every sequence of
      votes if and only if the request is sound: the votes cannot accept it, or the
      server can construct it. */
  lemma AgreementIff(env: Env, groups: Groups, slot: Slot)
    requires ValidEnv(env) && Matches(env, groups, slot.row, slot.task) && slot.task.VotingPhase?
    requires WonOver(slot.row, {}) && slot.row.active == map[]
    ensures Sound(slot.row) <==>
            forall ballots | Legal(slot, ballots) ::
              Agree(env, groups, VoteAll(slot, ballots).row, VoteAll(slot, ballots).task)
  {
    hide Matches, Sound, Legal, VoteAll, WonOver, Agree;
    if Sound(slot.row) {
      forall ballots | Legal(slot, ballots)
        ensures Agree(env, groups, VoteAll(slot, ballots).row, VoteAll(slot, ballots).task)
      {
        VotesKeepMatches(env, groups, slot, ballots);
        MatchesAgree(env, groups, VoteAll(slot, ballots).row, VoteAll(slot, ballots).task);
      }
    } else {
      UnsoundDisagrees(env, groups, slot);
    }
  }

  lemma NewIsUnvoted(kind: TaskType, name: string, protocol: ProtocolType, keyType: KeyType, threshold: nat,
                     groupId: Option<Bytes>, data: Option<Bytes>, ps: seq<Participant>)
    ensures WonOver(NewRow(kind, name, protocol, keyType, threshold, groupId, data, ps), {})
  {
    hide BestVote, Vote;
  }

  /** A new group task: cache and rows agree after every sequence of votes if and only if
      somebody holds more than 127 shares, or the protocol supports the key type and the
      threshold asked for. */
  lemma GroupAgreementIff(env: Env, groups: Groups, name: string, ps: seq<Participant>, threshold: nat,
                          protocol: ProtocolType, keyType: KeyType)
    requires ValidEnv(env) && DistinctIds(ps) && (forall p | p in ps :: p.shares >= 1)
    requires NewGroupTask(name, ps, threshold, protocol, keyType).Some?
    ensures var slot := NewGroupTask(name, ps, threshold, protocol, keyType).value;
            || (exists p :: p in ps && p.shares > 127)
            || (&& (protocol, keyType) in {(Gg18, PdfKey), (Gg18, ChallengeKey), (Frost, ChallengeKey),
                                           (Musig2, ChallengeKey), (ElGamal, DecryptKey)}
                && 2 <= threshold <= TotalShares(ps) && (protocol == Musig2 ==> threshold == TotalShares(ps)))
            <==>
            forall ballots | Legal(slot, ballots) ::
              Agree(env, groups, VoteAll(slot, ballots).row, VoteAll(slot, ballots).task)
  {
    hide Legal, VoteAll, Agree, SupportedPair, CheckThreshold, TotalShares, NameValid, Listing, RowTotal, Matches,
         WonOver;
    var slot := NewGroupTask(name, ps, threshold, protocol, keyType).value;
    NewGroupTaskMatches(env, groups, name, ps, threshold, protocol, keyType);
    NewRowListing(GroupTask, name, protocol, keyType, threshold, None, None, ps);
    NewIsUnvoted(GroupTask, name, protocol, keyType, threshold, None, None, ps);
    SmallNewRow(slot.row, ps);
    GroupAcceptableIffSmall(slot.row);
    AdmittedIff(protocol, keyType, threshold, TotalShares(ps));
    AgreementIff(env, groups, slot);
  }

  lemma SmallNewRow(row: TaskRow, ps: seq<Participant>)
    requires Listing(row.participants, ps) && (forall p | p in ps :: p.shares >= 1)
    ensures SmallRow(row) <==> SmallShares(ps)
  {
    forall id | id in row.participants ensures exists p :: p in ps && p.shares == row.participants[id].shares {
      var p :| p in ps && p.device.id == id;
    }
  }

  /** A new task of a group: cache and rows agree after every sequence of votes if and only
      if it is no PDF task, or its participants cannot accept it, or name and data are
      within the limits for PDF tasks. */
  lemma ThresholdAgreementIff(env: Env, groups: Groups, id: Bytes, decrypt: bool, name: string, data: Bytes,
                              ps: seq<Participant>)
    requires ValidEnv(env) && id in groups && GroupOk(groups[id]) && GroupListing(groups[id], ps)
    requires NewThresholdTask(id, groups[id], decrypt, name, data, ps).Some?
    ensures var g, slot := groups[id], NewThresholdTask(id, groups[id], decrypt, name, data, ps).value;
            || g.keyType != PdfKey || MapSum(BestVotes(Weights(ps))) < g.threshold
            || (|data| <= 8388608 && |Encoded(name)| <= 256)
            <==>
            forall ballots | Legal(slot, ballots) ::
              Agree(env, groups, VoteAll(slot, ballots).row, VoteAll(slot, ballots).task)
  {
    hide Legal, VoteAll, Agree, TotalShares, Listing, RowTotal, Matches, WonOver, GroupOk, GroupListing, Printable,
         Utf8Length, Encoded, GroupOf, BestVotes;
    var g, slot := groups[id], NewThresholdTask(id, groups[id], decrypt, name, data, ps).value;
    NewThresholdTaskMatches(env, groups, id, decrypt, name, data, ps);
    Utf8LengthIs(name);
    GroupListingFacts(g, ps);
    NewRowListing(slot.row.kind, name, g.protocol, g.keyType, g.threshold, Some(id), Some(data), ps);
    ListingFacts(slot.row.participants, ps);
    NewIsUnvoted(slot.row.kind, name, g.protocol, g.keyType, g.threshold, Some(id), Some(data), ps);
    AgreementIff(env, groups, slot);
  }

  // ------------------------------------------------------------------------ instances

  /** Two devices with a share each ask for a group with threshold 1, which the database
      admits and the protocol does not. */
  lemma ThresholdOneDisagrees(env: Env, groups: Groups, a: Device, b: Device)
    requires ValidEnv(env) && a.id != b.id
    ensures var slot := NewGroupTask("g", [Participant(a, 1), Participant(b, 1)], 1, Gg18, ChallengeKey);
            && slot.Some?
            && exists ballots ::
                 Legal(slot.value, ballots)
                 && !Agree(env, groups, VoteAll(slot.value, ballots).row, VoteAll(slot.value, ballots).task)
  {
    hide Legal, VoteAll, Agree, NewRow;
    var ps := [Participant(a, 1), Participant(b, 1)];
    assert TotalShares(ps) == 2 by { TwoShares(a, b); }
    assert NameValid("g");
    GroupAgreementIff(env, groups, "g", ps, 1, Gg18, ChallengeKey);
  }

  lemma TwoShares(a: Device, b: Device)
    ensures TotalShares([Participant(a, 1), Participant(b, 1)]) == 2
  {
    var ps, tail := [Participant(a, 1), Participant(b, 1)], [Participant(b, 1)];
    assert ps[1..] == tail && tail[1..] == [];
    assert TotalShares(tail) == 1;
  }

  lemma {:induction false} TwoByteName(n: nat)
    ensures Utf8Length(seq(n, _ => '\U{e9}')) == 2 * n
  {
    if n > 0 {
      var name: string := seq(n, _ => '\U{e9}');
      assert name[1..] == seq(n - 1, _ => '\U{e9}');
      TwoByteName(n - 1);
    }
  }

  /** A PDF request named by 200 characters of two bytes each: the database counts
      characters and admits it, the construction counts bytes and does not. */
  lemma LongNameDisagrees(env: Env, groups: Groups, id: Bytes, a: Device, b: Device, data: Bytes)
    requires ValidEnv(env) && a.id != b.id && id in groups && groups[id].certificate.Some?
    requires groups[id] == GroupRow(2, Gg18, PdfKey, groups[id].certificate,
                                    map[a.id := Participant(a, 1), b.id := Participant(b, 1)])
    ensures var name: string := seq(200, _ => '\U{e9}');
            var slot := NewThresholdTask(id, groups[id], false, name, data, [Participant(a, 1), Participant(b, 1)]);
            && slot.Some?
            && exists ballots ::
                 Legal(slot.value, ballots)
                 && !Agree(env, groups, VoteAll(slot.value, ballots).row, VoteAll(slot.value, ballots).task)
  {
    hide Legal, VoteAll, Agree, NewRow;
    var name: string := seq(200, _ => '\U{e9}');
    var ps := [Participant(a, 1), Participant(b, 1)];
    TwoByteName(200);
    Utf8LengthIs(name);
    assert NameValid(name) && |Encoded(name)| == 400;
    TwoShareGroup(groups[id], a, b);
    ThresholdAgreementIff(env, groups, id, false, name, data, ps);
  }

  lemma PairSum(a: Bytes, b: Bytes)
    requires a != b
    ensures MapSum(map[a := 1, b := 1]) == 2
  {
    var w, v: map<Bytes, nat> := map[a := 1, b := 1], map[b := 1];
    MapSumRemove(w, a);
    assert w - {a} == v;
    MapSumRemove(v, b);
    assert v - {b} == map[];
  }

  lemma PairWeights(a: Device, b: Device)
    requires a.id != b.id
    ensures var ps := [Participant(a, 1), Participant(b, 1)];
            DistinctIds(ps) && IdSet(ps) == {a.id, b.id} && Weights(ps) == map[a.id := 1, b.id := 1]
  {
    var ps := [Participant(a, 1), Participant(b, 1)];
    assert ps[0] in ps && ps[1] in ps;
    assert IdSet(ps) == {a.id, b.id};
    SharesOfMember(ps, ps[0]);
    SharesOfMember(ps, ps[1]);
  }

  lemma TwoShareGroup(g: GroupRow, a: Device, b: Device)
    requires a.id != b.id && g.certificate.Some?
    requires g == GroupRow(2, Gg18, PdfKey, g.certificate, map[a.id := Participant(a, 1), b.id := Participant(b, 1)])
    ensures var ps := [Participant(a, 1), Participant(b, 1)];
            GroupOk(g) && GroupListing(g, ps) && MapSum(BestVotes(Weights(ps))) == 2
  {
    hide MapSum, IdSet, Weights, DistinctIds;
    PairWeights(a, b);
    PairSum(a.id, b.id);
    var w: map<Bytes, nat> := map[a.id := 1, b.id := 1];
    assert (map d | d in g.participants :: g.participants[d].shares) == w;
    assert BestVotes(w) == w;
  }
}
