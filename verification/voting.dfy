/** Weighted voting: every participant votes with its number of shares, cast to
    a signed byte.  A task starts when the accepting shares reach the accept
    threshold and is declined when the rejecting shares reach `total - threshold + 1`. */
module Voting {
  import opened Basics
  import opened Shares

  /** The wrapping cast to a signed byte.  Negating the cast count wraps as well, as in
      builds without overflow checks; with them, rejecting with 128 shares (or 384, and so
      on) panics. */
  function ToI8(x: int): int {
    (x + 128) % 256 - 128
  }

  function Vote(shares: nat, accept: bool): int {
    if accept then ToI8(shares) else ToI8(-ToI8(shares))
  }

  function Positive(votes: map<Bytes, int>): map<Bytes, nat> {
    map d | d in votes && votes[d] > 0 :: votes[d]
  }

  function Negative(votes: map<Bytes, int>): map<Bytes, nat> {
    map d | d in votes && votes[d] < 0 :: -votes[d]
  }

  ghost function Accepts(votes: map<Bytes, int>): nat {
    MapSum(Positive(votes))
  }

  ghost function Rejects(votes: map<Bytes, int>): nat {
    MapSum(Negative(votes))
  }

  /** Every recorded vote is one its participant may have cast. */
  ghost predicate Cast(ps: seq<Participant>, votes: map<Bytes, int>) {
    && votes.Keys <= IdSet(ps)
    && forall d | d in votes :: votes[d] in {0, Vote(SharesOf(ps, d), true), Vote(SharesOf(ps, d), false)}
  }

  datatype DecisionUpdate = Undecided | Accepted | Declined(accepts: nat, rejects: nat)

  ghost function Verdict(votes: map<Bytes, int>, total: nat, threshold: nat): DecisionUpdate {
    if Accepts(votes) >= threshold then Accepted
    else if Rejects(votes) >= total - threshold + 1 then Declined(Accepts(votes), Rejects(votes))
    else Undecided
  }

  predicate DeviceAccepted(votes: map<Bytes, int>, id: Bytes) {
    id in votes && votes[id] > 0
  }

  // ------------------------------------------------------------------ tallies

  /** The cast may lose shares and may flip the sign, but never adds weight. */
  lemma VoteBound(shares: nat, accept: bool)
    ensures 0 - shares <= Vote(shares, accept) <= shares
    ensures shares <= 127 ==> Vote(shares, accept) == if accept then shares else 0 - shares
  {
  }

  /** The database casts the negated count, the live task negates the cast
      count; both give the same vote. */
  lemma StoredVote(shares: nat)
    ensures Vote(shares, false) == ToI8(0 - shares)
  {
  }

  lemma {:induction false} WeightsSum(ps: seq<Participant>)
    requires DistinctIds(ps)
    ensures MapSum(Weights(ps)) == TotalShares(ps)
  {
    if ps == [] {
      assert Weights(ps) == map[];
    } else {
      var id := ps[0].device.id;
      assert ps[0] in ps;
      MapSumRemove(Weights(ps), id);
      WeightsSum(ps[1..]);
      WeightsTail(ps);
    }
  }

  lemma WeightsTail(ps: seq<Participant>)
    requires DistinctIds(ps) && ps != []
    ensures Weights(ps) - {ps[0].device.id} == Weights(ps[1..])
  {
    IdSetCons(ps);
    hide DistinctIds, IdSet;
    var a, b := Weights(ps) - {ps[0].device.id}, Weights(ps[1..]);
    assert a.Keys == b.Keys;
    assert forall id | id in a :: a[id] == b[id];
  }

  lemma IdSetCons(ps: seq<Participant>)
    requires DistinctIds(ps) && ps != []
    ensures ps[0].device.id !in IdSet(ps[1..])
    ensures IdSet(ps) == {ps[0].device.id} + IdSet(ps[1..])
  {
    assert forall p :: p in ps <==> p == ps[0] || p in ps[1..];
  }

  /** Accepting and rejecting shares never exceed the total, whatever the share
      counts. */
  lemma TallyBound(ps: seq<Participant>, votes: map<Bytes, int>)
    requires DistinctIds(ps) && Cast(ps, votes)
    ensures Accepts(votes) + Rejects(votes) <= TotalShares(ps)
  {
    var w := Weights(ps);
    forall d | d in votes ensures 0 - w[d] <= votes[d] <= w[d] {
      VoteBound(SharesOf(ps, d), true);
      VoteBound(SharesOf(ps, d), false);
    }
    MapSumSplit(Positive(votes), Negative(votes), w);
    WeightsSum(ps);
  }

  /** The two thresholds are never both reached. */
  lemma VerdictsExclude(ps: seq<Participant>, votes: map<Bytes, int>, threshold: nat)
    requires DistinctIds(ps) && Cast(ps, votes) && threshold <= TotalShares(ps)
    ensures !(Accepts(votes) >= threshold && Rejects(votes) >= TotalShares(ps) - threshold + 1)
  {
    TallyBound(ps, votes);
  }

  // ------------------------------------------- what the thresholds decide

  /** All participants hold few enough shares for the cast to be exact. */
  predicate SmallShares(ps: seq<Participant>) {
    forall p | p in ps :: 1 <= p.shares <= 127
  }

  /** `full` keeps the votes already cast and adds one for everyone else. */
  ghost predicate Completes(ps: seq<Participant>, votes: map<Bytes, int>, full: map<Bytes, int>) {
    && full.Keys == IdSet(ps)
    && (forall d | d in full :: full[d] in {Vote(SharesOf(ps, d), true), Vote(SharesOf(ps, d), false)})
    && (forall d | d in votes && votes[d] != 0 :: d in full && full[d] == votes[d])
  }

  /** Everyone who has not voted yet votes `accept`. */
  function Rest(ps: seq<Participant>, votes: map<Bytes, int>, accept: bool): map<Bytes, int> {
    map d | d in IdSet(ps) ::
      if d in votes && votes[d] != 0 then votes[d] else Vote(SharesOf(ps, d), accept)
  }

  lemma RestCompletes(ps: seq<Participant>, votes: map<Bytes, int>, accept: bool)
    requires Cast(ps, votes)
    ensures Completes(ps, votes, Rest(ps, votes, accept))
  {
  }

  lemma SmallSharesOf(ps: seq<Participant>, d: Bytes)
    requires DistinctIds(ps) && SmallShares(ps) && d in IdSet(ps)
    ensures 1 <= SharesOf(ps, d) <= 127
    ensures Vote(SharesOf(ps, d), true) == SharesOf(ps, d) && Vote(SharesOf(ps, d), false) == 0 - SharesOf(ps, d)
  {
    var p :| p in ps && p.device.id == d;
    SharesOfMember(ps, p);
    VoteBound(p.shares, true);
    VoteBound(p.shares, false);
  }

  /** Once everyone has voted, every share counts on one side. */
  lemma CompleteTally(ps: seq<Participant>, votes: map<Bytes, int>, full: map<Bytes, int>)
    requires DistinctIds(ps) && SmallShares(ps) && Completes(ps, votes, full)
    ensures Accepts(full) + Rejects(full) == TotalShares(ps)
  {
    hide Vote, ToI8, SmallShares, DistinctIds, MapSum;
    forall d | d in full ensures full[d] == SharesOf(ps, d) > 0 || -full[d] == SharesOf(ps, d) > 0 {
      SmallSharesOf(ps, d);
    }
    MapSumSplit(Positive(full), Negative(full), Weights(ps));
    WeightsSum(ps);
  }

  /** A tally only grows when missing votes come in. */
  lemma CompletionGrows(ps: seq<Participant>, votes: map<Bytes, int>, full: map<Bytes, int>)
    requires Completes(ps, votes, full)
    ensures Accepts(votes) <= Accepts(full) && Rejects(votes) <= Rejects(full)
  {
    MapSumSplit(Positive(votes), map[], Positive(full));
    MapSumSplit(Negative(votes), map[], Negative(full));
  }

  /** If all missing votes go one way, exactly the other side's shares stay out. */
  lemma RestTally(ps: seq<Participant>, votes: map<Bytes, int>)
    requires DistinctIds(ps) && SmallShares(ps) && Cast(ps, votes)
    ensures Accepts(Rest(ps, votes, true)) == TotalShares(ps) - Rejects(votes)
    ensures Rejects(Rest(ps, votes, false)) == TotalShares(ps) - Accepts(votes)
  {
    hide Vote, ToI8, Accepts, Rejects, Rest;
    RestCompletes(ps, votes, true);
    RestCompletes(ps, votes, false);
    CompleteTally(ps, votes, Rest(ps, votes, true));
    CompleteTally(ps, votes, Rest(ps, votes, false));
    RestOneSided(ps, votes);
  }

  lemma RestOneSided(ps: seq<Participant>, votes: map<Bytes, int>)
    requires DistinctIds(ps) && SmallShares(ps) && Cast(ps, votes)
    ensures Rejects(Rest(ps, votes, true)) == Rejects(votes)
    ensures Accepts(Rest(ps, votes, false)) == Accepts(votes)
  {
    hide Rest, MapSum, Positive, Negative, Cast, SmallShares, DistinctIds;
    RestAddsNoRejects(ps, votes);
    RestAddsNoAccepts(ps, votes);
  }

  lemma RestAddsNoRejects(ps: seq<Participant>, votes: map<Bytes, int>)
    requires DistinctIds(ps) && SmallShares(ps) && Cast(ps, votes)
    ensures Negative(Rest(ps, votes, true)) == Negative(votes)
  {
    hide Vote, ToI8, SmallShares, DistinctIds, SharesOf;
    forall d | d in IdSet(ps) ensures Vote(SharesOf(ps, d), true) > 0 {
      SmallSharesOf(ps, d);
    }
  }

  lemma RestAddsNoAccepts(ps: seq<Participant>, votes: map<Bytes, int>)
    requires DistinctIds(ps) && SmallShares(ps) && Cast(ps, votes)
    ensures Positive(Rest(ps, votes, false)) == Positive(votes)
  {
    hide Vote, ToI8, SmallShares, DistinctIds, SharesOf;
    forall d | d in IdSet(ps) ensures 0 > Vote(SharesOf(ps, d), false) {
      SmallSharesOf(ps, d);
    }
  }

  /** A task is declined exactly when no way of casting the missing votes could
      still accept it, and accepted exactly when none could still decline it. */
  lemma DeclinedIsExact(ps: seq<Participant>, votes: map<Bytes, int>, threshold: nat)
    requires DistinctIds(ps) && SmallShares(ps) && Cast(ps, votes) && 1 <= threshold <= TotalShares(ps)
    ensures Rejects(votes) >= TotalShares(ps) - threshold + 1
            <==> forall full | Completes(ps, votes, full) :: Accepts(full) < threshold
    ensures Accepts(votes) >= threshold
            <==> forall full | Completes(ps, votes, full) :: Rejects(full) < TotalShares(ps) - threshold + 1
  {
    hide Accepts, Rejects, Completes, Cast, Rest, DistinctIds, SmallShares, TotalShares;
    RestCompletes(ps, votes, true);
    RestCompletes(ps, votes, false);
    RestTally(ps, votes);
    forall full | Completes(ps, votes, full)
      ensures Accepts(full) + Rejects(full) == TotalShares(ps)
      ensures Accepts(votes) <= Accepts(full) && Rejects(votes) <= Rejects(full)
    {
      CompleteTally(ps, votes, full);
      CompletionGrows(ps, votes, full);
    }
  }

  /** An undecided task can still go either way; a complete vote is decided. */
  lemma UndecidedIsOpen(ps: seq<Participant>, votes: map<Bytes, int>, threshold: nat)
    requires DistinctIds(ps) && SmallShares(ps) && Cast(ps, votes) && 1 <= threshold <= TotalShares(ps)
    ensures Verdict(votes, TotalShares(ps), threshold).Undecided? <==>
              && (exists full :: Completes(ps, votes, full) && Verdict(full, TotalShares(ps), threshold).Accepted?)
              && (exists full :: Completes(ps, votes, full) && Verdict(full, TotalShares(ps), threshold).Declined?)
    ensures Completes(ps, votes, votes) ==> !Verdict(votes, TotalShares(ps), threshold).Undecided?
  {
    hide Accepts, Rejects, Completes, Cast, Rest, DistinctIds, SmallShares, TotalShares;
    DeclinedIsExact(ps, votes, threshold);
    RestCompletes(ps, votes, true);
    RestCompletes(ps, votes, false);
    RestTally(ps, votes);
    forall full | Completes(ps, votes, full)
      ensures Accepts(full) + Rejects(full) == TotalShares(ps)
    {
      CompleteTally(ps, votes, full);
    }
    if Verdict(votes, TotalShares(ps), threshold).Undecided? {
      assert Verdict(Rest(ps, votes, true), TotalShares(ps), threshold).Accepted?;
      assert Verdict(Rest(ps, votes, false), TotalShares(ps), threshold).Declined?;
    }
  }

  // -------------------------------------------------- the signed-byte limit

  /** A unanimous yes is counted in full, and so reaches every admissible
      threshold, if and only if nobody holds more than 127 shares. */
  lemma UnanimityNeedsSmallShares(ps: seq<Participant>)
    requires DistinctIds(ps) && forall p | p in ps :: 1 <= p.shares
    ensures Accepts(Rest(ps, map[], true)) == TotalShares(ps) <==> SmallShares(ps)
  {
    if SmallShares(ps) {
      RestTally(ps, map[]);
      assert Negative(map[]) == map[];
    } else {
      var p :| p in ps && p.shares > 127;
      RestCompletes(ps, map[], true);
      LargeShareLost(ps, Rest(ps, map[], true), p);
    }
  }

  /** A vote never weighs more than its shares, nor more than 127. */
  lemma VotesWithinShares(ps: seq<Participant>, votes: map<Bytes, int>)
    requires Cast(ps, votes)
    ensures forall d | d in votes :: d in IdSet(ps) && votes[d] <= SharesOf(ps, d) && votes[d] <= 127
  {
    forall d | d in votes ensures votes[d] <= SharesOf(ps, d) && votes[d] <= 127 {
      VoteBound(SharesOf(ps, d), true);
      VoteBound(SharesOf(ps, d), false);
    }
  }

  /** No votes at all can add up to the total when one participant holds more
      than 127 shares. */
  lemma LargeShareLost(ps: seq<Participant>, votes: map<Bytes, int>, p: Participant)
    requires DistinctIds(ps) && Cast(ps, votes) && p in ps && p.shares > 127
    ensures Accepts(votes) < TotalShares(ps)
  {
    hide Vote, ToI8, SharesOf, TotalShares, DistinctIds, Cast;
    var w, id := Weights(ps), p.device.id;
    assert id in IdSet(ps);
    VotesWithinShares(ps, votes);
    SharesOfMember(ps, p);
    var a := Positive(votes);
    WeightsSum(ps);
    MapSumRemove(w, id);
    if id in a {
      MapSumRemove(a, id);
    } else {
      assert a - {id} == a;
    }
    MapSumSplit(a - {id}, map[], w - {id});
  }

  /** The verdict says all that can be said about the outcome: declined if and only if
      no casting of the missing votes can accept the task any more, accepted if and only
      if none can decline it, and undecided if and only if both are still possible. */
  ghost predicate Telling(ps: seq<Participant>, votes: map<Bytes, int>, threshold: nat) {
    var total := TotalShares(ps);
    && (Verdict(votes, total, threshold).Declined?
        <==> forall full | Completes(ps, votes, full) :: Accepts(full) < threshold)
    && (Verdict(votes, total, threshold).Accepted?
        <==> forall full | Completes(ps, votes, full) :: Rejects(full) < total - threshold + 1)
    && (Verdict(votes, total, threshold).Undecided?
        <==> && (exists full :: Completes(ps, votes, full) && Verdict(full, total, threshold).Accepted?)
             && (exists full :: Completes(ps, votes, full) && Verdict(full, total, threshold).Declined?))
  }

  lemma SmallSharesTell(ps: seq<Participant>, votes: map<Bytes, int>, threshold: nat)
    requires DistinctIds(ps) && SmallShares(ps) && Cast(ps, votes) && 1 <= threshold <= TotalShares(ps)
    ensures Telling(ps, votes, threshold)
  {
    hide Accepts, Rejects, Completes, Cast, DistinctIds, SmallShares, TotalShares;
    DeclinedIsExact(ps, votes, threshold);
    UndecidedIsOpen(ps, votes, threshold);
    VerdictsExclude(ps, votes, threshold);
  }

  lemma CompletionIsCast(ps: seq<Participant>, votes: map<Bytes, int>, full: map<Bytes, int>)
    requires Completes(ps, votes, full)
    ensures Cast(ps, full)
  {
    hide Vote;
  }

  /** The verdict is telling for all votes and all thresholds if and only if nobody
      holds more than 127 shares: with more in one hand, a group task that nobody has
      voted on yet is already lost without being declined. */
  lemma TellingIffSmallShares(ps: seq<Participant>)
    requires DistinctIds(ps) && forall p | p in ps :: 1 <= p.shares
    ensures SmallShares(ps) <==>
              forall votes, threshold | Cast(ps, votes) && 1 <= threshold <= TotalShares(ps) ::
                Telling(ps, votes, threshold)
  {
    if SmallShares(ps) {
      forall votes, threshold | Cast(ps, votes) && 1 <= threshold <= TotalShares(ps)
        ensures Telling(ps, votes, threshold)
      {
        SmallSharesTell(ps, votes, threshold);
      }
    } else {
      var p :| p in ps && p.shares > 127;
      var none: map<Bytes, int> := map[];
      assert Cast(ps, none) && Positive(none) == map[] && Negative(none) == map[];
      LargeShareLost(ps, none, p);
      forall full | Completes(ps, none, full) ensures Accepts(full) < TotalShares(ps) {
        CompletionIsCast(ps, none, full);
        LargeShareLost(ps, full, p);
      }
      assert !Telling(ps, none, TotalShares(ps));
    }
  }

  /** The most a participant's vote can count for acceptance, cast either way. */
  function BestVote(shares: nat): nat {
    if Vote(shares, true) > 0 then Vote(shares, true)
    else if Vote(shares, false) > 0 then Vote(shares, false)
    else 0
  }

  function BestVotes(weights: map<Bytes, nat>): map<Bytes, nat> {
    map d | d in weights :: BestVote(weights[d])
  }

  lemma BestVoteBound(shares: nat)
    ensures Vote(shares, true) <= BestVote(shares) && Vote(shares, false) <= BestVote(shares)
    ensures BestVote(shares) <= shares && (BestVote(shares) == shares <==> shares <= 127)
  {
  }

  /** No votes accept with more than the best votes of all participants. */
  lemma AcceptsAtMostBest(ps: seq<Participant>, votes: map<Bytes, int>)
    requires DistinctIds(ps) && Cast(ps, votes)
    ensures Accepts(votes) <= MapSum(BestVotes(Weights(ps)))
  {
    hide Vote, BestVote;
    var best := BestVotes(Weights(ps));
    forall d | d in Positive(votes) ensures d in best && Positive(votes)[d] <= best[d] {
      BestVoteBound(SharesOf(ps, d));
    }
    MapSumSplit(Positive(votes), map[], best);
  }

  /** A device with 200 shares declines a task by accepting it. */
  lemma AcceptingCanDecline(d: Device)
    ensures Vote(200, true) == -56
    ensures Verdict(map[d.id := Vote(200, true)], 200, 200) == Declined(0, 56)
  {
    var votes := map[d.id := Vote(200, true)];
    assert Positive(votes) == map[];
    assert Negative(votes) == map[d.id := 56];
    MapSumRemove(Negative(votes), d.id);
    assert Negative(votes) - {d.id} == map[];
  }

  // ------------------------------------------------------ the voting object

  /** Sums the positive and the negative votes, in whatever order the map is
      walked. */
  method AcceptsRejects(votes: map<Bytes, int>) returns (accepts: nat, rejects: nat)
    ensures accepts == Accepts(votes) && rejects == Rejects(votes)
  {
    accepts, rejects := 0, 0;
    var left := votes;
    assert votes - {} == votes;
    while left != map[]
      invariant Accepts(votes) == accepts + Accepts(left)
      invariant Rejects(votes) == rejects + Rejects(left)
      decreases left.Keys
    {
      var d :| d in left;
      TakeVote(left, d);
      if left[d] > 0 {
        accepts := accepts + left[d];
      }
      if left[d] < 0 {
        rejects := rejects + -left[d];
      }
      left := left - {d};
    }
  }

  lemma TakeVote(votes: map<Bytes, int>, d: Bytes)
    requires d in votes
    ensures Accepts(votes) == (if votes[d] > 0 then votes[d] else 0) + Accepts(votes - {d})
    ensures Rejects(votes) == (if votes[d] < 0 then -votes[d] else 0) + Rejects(votes - {d})
    ensures (votes - {d}).Keys < votes.Keys
  {
    assert Positive(votes - {d}) == Positive(votes) - {d};
    assert Negative(votes - {d}) == Negative(votes) - {d};
    if votes[d] > 0 {
      MapSumRemove(Positive(votes), d);
      assert Negative(votes) - {d} == Negative(votes);
    } else if votes[d] < 0 {
      MapSumRemove(Negative(votes), d);
      assert Positive(votes) - {d} == Positive(votes);
    } else {
      assert Positive(votes) - {d} == Positive(votes) && Negative(votes) - {d} == Negative(votes);
    }
  }

  /** The shares of the participant with the given id, if there is one. */
  method FindShares(ps: seq<Participant>, id: Bytes) returns (r: Option<nat>)
    requires DistinctIds(ps)
    ensures r == if id in IdSet(ps) then Some(SharesOf(ps, id)) else None
  {
    for k := 0 to |ps|
      invariant forall j | 0 <= j < k :: ps[j].device.id != id
    {
      if ps[k].device.id == id {
        assert ps[k] in ps;
        SharesOfMember(ps, ps[k]);
        return Some(ps[k].shares);
      }
    }
    return None;
  }

  /** A device's vote replaces its earlier one. */
  ghost function Decided(ps: seq<Participant>, votes: map<Bytes, int>, id: Bytes, accept: bool): map<Bytes, int> {
    votes[id := Vote(SharesOf(ps, id), accept)]
  }

  lemma DecidedCast(ps: seq<Participant>, votes: map<Bytes, int>, id: Bytes, accept: bool)
    requires Cast(ps, votes) && id in IdSet(ps)
    ensures Cast(ps, Decided(ps, votes, id, accept))
  {
  }

  class VotingTask {
    const participants: seq<Participant>
    const acceptThreshold: nat
    var decisions: map<Bytes, int>

    ghost predicate Valid()
      reads this
    {
      DistinctIds(participants) && Cast(participants, decisions) && acceptThreshold <= TotalShares(participants)
    }

    constructor (participants: seq<Participant>, acceptThreshold: nat, decisions: map<Bytes, int>)
      requires DistinctIds(participants) && Cast(participants, decisions) && acceptThreshold <= TotalShares(participants)
      ensures Valid()
      ensures this.participants == participants && this.acceptThreshold == acceptThreshold
      ensures this.decisions == decisions
    {
      this.participants := participants;
      this.acceptThreshold := acceptThreshold;
      this.decisions := decisions;
    }

    /** Records a participant's vote and says whether it decides the task; a
        stranger's vote is refused and changes nothing. */
    method Decide(id: Bytes, accept: bool) returns (r: Option<DecisionUpdate>)
      requires Valid()
      modifies this
      ensures Valid()
      ensures id !in IdSet(participants) ==> r == None && decisions == old(decisions)
      ensures id in IdSet(participants) ==>
                && decisions == Decided(participants, old(decisions), id, accept)
                && r == Some(Verdict(decisions, TotalShares(participants), acceptThreshold))
      ensures r != None ==>
                !(Accepts(decisions) >= acceptThreshold
                  && Rejects(decisions) >= TotalShares(participants) - acceptThreshold + 1)
    {
      hide ToI8, MapSum;
      var found := FindShares(participants, id);
      if found == None {
        return None;
      }
      DecidedCast(participants, decisions, id, accept);
      decisions := decisions[id := Vote(found.value, accept)];
      VerdictsExclude(participants, decisions, acceptThreshold);
      var accepts, rejects := AcceptsRejects(decisions);
      if accepts >= acceptThreshold {
        return Some(Accepted);
      } else if rejects >= TotalShares(participants) - acceptThreshold + 1 {
        return Some(Declined(accepts, rejects));
      }
      return Some(Undecided);
    }
  }
}
