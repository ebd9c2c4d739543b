/** Choosing the active shares of an accepted task. */
module Quorum {
  import opened Basics
  import opened Shares
  import opened Voting

  function LastActivation(activations: map<Bytes, nat>, id: Bytes, now: nat): nat {
    if id in activations then activations[id] else now
  }

  function Accepting(ps: seq<Participant>, votes: map<Bytes, int>): set<Bytes> {
    set id | id in IdSet(ps) && DeviceAccepted(votes, id)
  }

  /** The devices shares are drawn from: those seen in the last five seconds if
      they hold enough shares, otherwise all that accepted. */
  function Candidates(ps: seq<Participant>, votes: map<Bytes, int>, threshold: nat,
                      activations: map<Bytes, nat>, now: nat): set<Bytes>
  {
    var connected := Connected(ps, votes, activations, now);
    if TotalShares(Restrict(ps, connected)) >= threshold then connected else Accepting(ps, votes)
  }

  /** Devices that accepted and were heard from in the last five seconds. */
  function Connected(ps: seq<Participant>, votes: map<Bytes, int>, activations: map<Bytes, nat>, now: nat): set<Bytes> {
    set id | id in Accepting(ps, votes) && LastActivation(activations, id, now) > now - 5
  }

  function Pool(ps: seq<Participant>, votes: map<Bytes, int>, threshold: nat,
                activations: map<Bytes, nat>, now: nat): seq<Device>
  {
    Expand(Restrict(ps, Candidates(ps, votes, threshold, activations, now)))
  }

  /** Devices that accepted hold at least as many shares as they cast votes. */
  lemma AcceptingHoldVotes(ps: seq<Participant>, votes: map<Bytes, int>)
    requires DistinctIds(ps) && Cast(ps, votes)
    ensures TotalShares(Restrict(ps, Accepting(ps, votes))) >= Accepts(votes)
  {
    var ids := Accepting(ps, votes);
    var r := Restrict(ps, ids);
    RestrictShares(ps, ids, []);
    forall d | d in Positive(votes) ensures d in Weights(r) && Positive(votes)[d] <= Weights(r)[d] {
      VoteBound(SharesOf(ps, d), true);
      VoteBound(SharesOf(ps, d), false);
      RestrictShares(ps, ids, d);
      var p :| p in ps && p.device.id == d;
      assert p in r;
    }
    WeightsSum(r);
    MapSumSplit(Positive(votes), map[], Weights(r));
  }

  /** Whichever pool is used, an accepted task finds its quorum in it. */
  lemma PoolSuffices(ps: seq<Participant>, votes: map<Bytes, int>, threshold: nat,
                     activations: map<Bytes, nat>, now: nat)
    requires DistinctIds(ps) && Cast(ps, votes) && Accepts(votes) >= threshold
    ensures |Pool(ps, votes, threshold, activations, now)| >= threshold
  {
    AcceptingHoldVotes(ps, votes);
  }

  /** A quorum draw: exactly `threshold` distinct indices below the number of
      shares, owned by devices that accepted, each device on a prefix of its own
      stretch. */
  lemma QuorumIsAssigned(ps: seq<Participant>, votes: map<Bytes, int>, threshold: nat,
                         activations: map<Bytes, nat>, now: nat, chosen: seq<Device>)
    requires DistinctIds(ps) && Cast(ps, votes) && Accepts(votes) >= threshold
    requires Sample(Pool(ps, votes, threshold, activations, now), threshold, chosen)
    ensures var active := ActiveMap(ps, Tally(chosen));
            && |chosen| == |active| == threshold
            && WithinShares(ps, Tally(chosen))
            && (forall i | i in active ::
                  && i < TotalShares(ps)
                  && DeviceAccepted(votes, active[i].id)
                  && FirstIndex(SortById(ps), active[i].id) <= i
                     < FirstIndex(SortById(ps), active[i].id) + CountOf(Tally(chosen), active[i].id))
    ensures forall d | d in chosen :: Owned(SortById(ps), d)
    ensures WithinShares(SortById(ps), Tally(chosen))
  {
    hide Sample, Cast, DistinctIds, Accepts;
    var ids := Candidates(ps, votes, threshold, activations, now);
    PoolSuffices(ps, votes, threshold, activations, now);
    assert |chosen| == threshold by { SampleSize(Pool(ps, votes, threshold, activations, now), threshold, chosen); }
    SampleWithinShares(ps, ids, threshold, chosen);
    SortedListing(ps);
    ActiveCardinality(SortById(ps), chosen);
    var active := ActiveMap(ps, Tally(chosen));
    forall i | i in active ensures
        && i < TotalShares(ps)
        && DeviceAccepted(votes, active[i].id)
        && FirstIndex(SortById(ps), active[i].id) <= i
           < FirstIndex(SortById(ps), active[i].id) + CountOf(Tally(chosen), active[i].id)
    {
      var p := ActiveOwner(ps, Tally(chosen), i);
      assert p.device.id in Tally(chosen);
      ChosenAreCandidates(ps, ids, threshold, chosen, p.device.id);
    }
  }

  lemma SampleSize(pool: seq<Device>, n: nat, chosen: seq<Device>)
    requires Sample(pool, n, chosen) && n <= |pool|
    ensures |chosen| == n
  {
  }

  lemma ChosenAreCandidates(ps: seq<Participant>, ids: set<Bytes>, n: nat, chosen: seq<Device>, id: Bytes)
    requires DistinctIds(ps) && Sample(Expand(Restrict(ps, ids)), n, chosen) && id in Tally(chosen)
    ensures id in ids
  {
    RestrictShares(ps, ids, id);
    SampleTally(chosen, Expand(Restrict(ps, ids)));
    ExpandTally(Restrict(ps, ids), id);
  }

  /** Which devices shares are drawn from: each participant that accepted, with all of its
      shares, unless it was last heard from five or more seconds ago and those that were
      heard from since hold enough. */
  lemma PoolIsExact(ps: seq<Participant>, votes: map<Bytes, int>, threshold: nat,
                    activations: map<Bytes, nat>, now: nat, id: Bytes)
    requires DistinctIds(ps)
    ensures var recent := set d | d in IdSet(ps) && DeviceAccepted(votes, d)
                                  && (d in activations ==> now - activations[d] < 5);
            multiset(Ids(Pool(ps, votes, threshold, activations, now)))[id]
            == if id in IdSet(ps) && DeviceAccepted(votes, id)
                  && (id in recent || TotalShares(Restrict(ps, recent)) < threshold)
               then SharesOf(ps, id) else 0
  {
    hide DistinctIds, TotalShares, SharesOf, Restrict, Expand, IdSet;
    var ids := Candidates(ps, votes, threshold, activations, now);
    assert Connected(ps, votes, activations, now)
           == set d | d in IdSet(ps) && DeviceAccepted(votes, d) && (d in activations ==> now - activations[d] < 5);
    RestrictShares(ps, ids, id);
    ExpandTally(Restrict(ps, ids), id);
    if id !in IdSet(ps) { SharesOfOutsider(ps, id); }
  }

  /** If the devices heard from in the last five seconds hold enough shares, no other
      device gets an active share. */
  lemma QuorumIsConnected(ps: seq<Participant>, votes: map<Bytes, int>, threshold: nat,
                          activations: map<Bytes, nat>, now: nat, chosen: seq<Device>, i: nat)
    requires DistinctIds(ps) && Sample(Pool(ps, votes, threshold, activations, now), threshold, chosen)
    requires TotalShares(Restrict(ps, Connected(ps, votes, activations, now))) >= threshold
    requires i in ActiveMap(ps, Tally(chosen))
    ensures var id := ActiveMap(ps, Tally(chosen))[i].id;
            DeviceAccepted(votes, id) && (id in activations ==> now - activations[id] < 5)
  {
    hide Sample, DistinctIds, ActiveMap, FirstIndex, Restrict, Expand, TotalShares;
    var p := ActiveOwner(ps, Tally(chosen), i);
    assert p.device.id in Tally(chosen);
    ChosenAreCandidates(ps, Candidates(ps, votes, threshold, activations, now), threshold, chosen, p.device.id);
  }

  /** Draws the active shares, stores how many each device got and numbers them. */
  method ChooseActiveShares(ps: seq<Participant>, votes: map<Bytes, int>, threshold: nat,
                            activations: map<Bytes, nat>, now: nat, chosen: seq<Device>)
    returns (counts: map<Bytes, nat>, active: map<nat, Device>)
    requires DistinctIds(ps) && Cast(ps, votes) && Accepts(votes) >= threshold
    requires Sample(Pool(ps, votes, threshold, activations, now), threshold, chosen)
    ensures counts == Tally(chosen) && active == ActiveMap(ps, counts)
    ensures |active| == threshold
  {
    hide Sample, Cast, DistinctIds, Accepts, Candidates;
    QuorumIsAssigned(ps, votes, threshold, activations, now, chosen);
    counts := CountShares(Ids(chosen));
    assert DistinctIds(SortById(ps)) by { SortedListing(ps); }
    active := AssignIndices(SortById(ps), chosen);
  }
}
