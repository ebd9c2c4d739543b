/** Runs from an empty database that show what `Divergence` tells of all runs. */
module Instances {
  import opened Basics
  import opened Shares
  import opened Voting
  import opened Communication
  import opened Rounds
  import opened Progress
  import opened Store
  import opened Handlers
  import opened Refinement
  import opened Preservation
  import opened Invariant
  import opened Soundness
  import opened System
  import opened Runs
  import opened Timer
  import opened SharesOnRecord
  import opened Divergence
  import opened Origins
  import opened Requests
  import opened Messages
  import opened Passes

  /** One round, and everything verifies to what was sent. */
  function OneRound(): Env {
    Env((_, _) => 1, (m, _) => Some(m))
  }

  function Start(): Sys {
    Sys(map[], map[], map[], map[], map[], map[], Pass(0, []), 0)
  }

  /** From an empty database, these steps lead to the given state. */
  ghost predicate Reaches(env: Env, steps: seq<Step>, s: Sys) {
    Leads(env, Start(), steps, s) && Inv(env, s)
  }

  lemma ReachesStart(env: Env)
    ensures Reaches(env, [], Start())
  {
    hide Inv;
    LeadsNowhere(env, Start());
    EmptyInv(env, Start());
  }

  lemma ReachesOn(env: Env, steps: seq<Step>, s: Sys, step: Step)
    requires ValidEnv(env) && Reaches(env, steps, s) && Enabled(s, step)
    ensures Reaches(env, steps + [step], Apply(env, s, step))
  {
    hide Inv, Leads, Apply, Enabled;
    StepTaken(env, Start(), steps, s, step);
  }

  /** Then they are a run. */
  lemma ReachesInRun(env: Env, steps: seq<Step>, s: Sys) returns (b: seq<Sys>)
    requires Reaches(env, steps, s)
    ensures Behaviour(env, b, steps) && |b| == |steps| + 1 && b[|steps|] == s
  {
    hide Inv, Leads, Apply, Enabled;
    b := LeadsProlongs(env, [Start()], [], steps, s);
    assert [] + steps == steps;
  }

  lemma OneMore(env: Env, b: seq<Sys>, steps: seq<Step>, step: Step) returns (c: seq<Sys>)
    requires Behaviour(env, b, steps) && Enabled(b[|steps|], step)
    ensures Behaviour(env, c, steps + [step]) && c == b + [Apply(env, b[|steps|], step)]
  {
    hide Apply, Enabled, Empty;
    c := b + [Apply(env, b[|steps|], step)];
  }

  // ------------------------------------------------------------- a request of one device

  function Alone(a: Device): seq<Participant> {
    [Participant(a, 1)]
  }

  function LoneSteps(a: Device, protocol: ProtocolType, keyType: KeyType): seq<Step> {
    [Register(a), RequestGroup(0, "g", [a.id], Alone(a), 1, protocol, keyType)]
  }

  lemma AloneFacts(a: Device)
    ensures DistinctIds(Alone(a)) && IdSet(Alone(a)) == {a.id} && TotalShares(Alone(a)) == 1
    ensures Counted([a.id], map[a.id := a], Alone(a))
  {
    assert Alone(a)[0] in Alone(a) && Alone(a)[1..] == [];
    assert multiset([a.id])[a.id] == 1;
    assert IdSet(Alone(a)) == {a.id};
  }

  lemma LoneRequest(env: Env, a: Device, protocol: ProtocolType, keyType: KeyType) returns (s: Sys)
    requires ValidEnv(env)
    ensures Reaches(env, LoneSteps(a, protocol, keyType), s)
    ensures 0 in s.rows && 0 in s.cache && s.rows[0].kind.GroupTask? && s.hydrations == map[]
    ensures s.cache[0].VotingPhase? && s.cache[0].info.participants == Alone(a)
  {
    hide Reaches, NewRow, Counted;
    var s1 := Apply(env, Start(), Register(a));
    ReachesStart(env);
    ReachesOn(env, [], Start(), Register(a));
    AloneFacts(a);
    assert s1.devices == map[a.id := a] && [] + [Register(a)] == [Register(a)];
    var step := RequestGroup(0, "g", [a.id], Alone(a), 1, protocol, keyType);
    ReachesOn(env, [Register(a)], s1, step);
    s := Apply(env, s1, step);
    assert [Register(a)] + [step] == LoneSteps(a, protocol, keyType);
    assert NameValid("g");
    NewRowShape(GroupTask, "g", protocol, keyType, 1, None, None, Alone(a));
  }

  lemma LoneTotal(env: Env, s: Sys, a: Device)
    requires Inv(env, s) && 0 in s.cache && s.cache[0].VotingPhase? && s.cache[0].info.participants == Alone(a)
    ensures 0 in s.rows && RowTotal(s.rows[0]) == 1 && Listing(s.rows[0].participants, Alone(a))
  {
    hide Inv, TaskInv, RowInv, Listing, RowBase, Voted, TotalShares;
    InvParts(env, s, 0);
    VotingIsBare(env, s.groups, s.rows[0], s.cache[0]);
    VotedTerms(s.groups, s.rows[0].(active := map[]), s.cache[0]);
    ListingTotal(s.rows[0], Alone(a));
    AloneFacts(a);
  }

  lemma LoneVoted(env: Env, groups: Groups, slot: Slot, id: Bytes, activations: map<Bytes, nat>, now: nat,
                  chosen: seq<Device>, helper: Helper)
    requires TaskInv(env, groups, slot.row, slot.task) && Draws(slot, id, true, activations, now, chosen)
    requires slot.task.VotingPhase? && id in IdSet(slot.task.info.participants)
    requires slot.row.kind.GroupTask? && RowTotal(slot.row) == 1
    ensures var (slot', reply) := Decide(slot, id, true, chosen, helper);
            reply == Crashed && Lone(slot'.row) && slot'.row.participants.Keys == slot.row.participants.Keys
            && (forall ps :: Listing(slot'.row.participants, ps) <==> Listing(slot.row.participants, ps))
  {
    hide TaskInv, Decide, Decided, IdSet, RowBase, Voted, AcceptedRow, StoreDecision, SameTerms, Accepts, MayDraw,
         RowTotal, Listing, AcceptThreshold;
    var row, bare := slot.row, slot.row.(active := map[]);
    var stored, task := StoreDecision(bare, id, true), WithVote(slot.task, id, true);
    var row' := Decide(slot, id, true, chosen, helper).0.row;
    VoteCrashesIff(env, groups, slot, id, true, activations, now, chosen, helper);
    VotingIsBare(env, groups, row, slot.task);
    VoteIsRecorded(groups, Slot(bare, slot.task), id, true);
    DecidedRow(slot, id, true, chosen, helper);
    VotedAccepts(groups, stored, task, row');
    StoredSameTotal(row, id, true);
    LoneVote(groups, bare, slot.task, id, true);
    VoteKeepsTerms(slot, id, true, chosen, helper);
    TermsFix(row, row');
    VotingNotBegun(env, groups, row, slot.task);
    CrashKeepsResult(slot, id, true, chosen, helper);
  }

  lemma CrashKeepsResult(slot: Slot, id: Bytes, accept: bool, chosen: seq<Device>, helper: Helper)
    ensures Decide(slot, id, accept, chosen, helper).1 == Crashed ==>
              Decide(slot, id, accept, chosen, helper).0.row.result == slot.row.result
  {
    hide Accepts, Rejects, Decided, TotalShares, CreateRun, Initialize, ActiveMap, Tally, SortById, IdSet, NewComm;
  }

  /** A known device that asks for a group of itself alone, with threshold 1, and accepts
      it: the vote panics. */
  lemma LoneDeviceCrashes(env: Env, a: Device, protocol: ProtocolType, keyType: KeyType, helper: Helper)
    returns (b: seq<Sys>, steps: seq<Step>, chosen: seq<Device>)
    requires ValidEnv(env)
    ensures steps == LoneSteps(a, protocol, keyType) + [CastVote(0, a.id, true, map[], chosen, helper)]
    ensures Behaviour(env, b, steps) && |b| == 4 && Enabled(b[2], steps[2]) && ReplyTo(env, b[2], steps[2]) == Crashed
  {
    hide Reaches, Inv, Behaviour, Apply, Lone, Listing, Enabled;
    var s := LoneRequest(env, a, protocol, keyType);
    var s';
    chosen, s' := LoneAccepts(env, a, LoneSteps(a, protocol, keyType), s, helper);
    var step := CastVote(0, a.id, true, map[], chosen, helper);
    steps := LoneSteps(a, protocol, keyType) + [step];
    var before := ReachesInRun(env, LoneSteps(a, protocol, keyType), s);
    b := OneMore(env, before, LoneSteps(a, protocol, keyType), step);
  }

  lemma LoneAccepts(env: Env, a: Device, steps: seq<Step>, s: Sys, helper: Helper)
    returns (chosen: seq<Device>, s': Sys)
    requires ValidEnv(env) && Reaches(env, steps, s) && 0 in s.rows && 0 in s.cache && s.rows[0].kind.GroupTask?
    requires s.cache[0].VotingPhase? && s.cache[0].info.participants == Alone(a) && s.hydrations == map[]
    ensures var step := CastVote(0, a.id, true, map[], chosen, helper);
            && Enabled(s, step) && s' == Apply(env, s, step) && ReplyTo(env, s, step) == Crashed
            && Reaches(env, steps + [step], s')
    ensures 0 in s'.rows && Lone(s'.rows[0]) && Listing(s'.rows[0].participants, Alone(a)) && s'.hydrations == map[]
  {
    hide Inv, TaskInv, RowInv, Decide, Draws, Lone, Listing, Leads, RowTotal;
    var slot := SlotOf(s, 0);
    InvParts(env, s, 0);
    LoneTotal(env, s, a);
    AloneFacts(a);
    chosen := SomeDraw(slot, a.id, true, map[], s.now);
    LoneVoted(env, s.groups, slot, a.id, map[], s.now, chosen, helper);
    var step := CastVote(0, a.id, true, map[], chosen, helper);
    ReachesOn(env, steps, s, step);
    s' := Apply(env, s, step);
  }

  function Reads(ps: seq<Participant>, k: nat): seq<Step> {
    seq(k, _ => Read(0, ps))
  }

  /** After a restart of the server the reads of a hydration find the request. */
  lemma {:induction false} LoneReads(env: Env, steps: seq<Step>, s: Sys, ps: seq<Participant>, k: nat)
    returns (s': Sys)
    requires ValidEnv(env) && Reaches(env, steps, s) && 0 in s.rows && Listing(s.rows[0].participants, ps)
    requires s.hydrations == map[0 := ReadUpTo(0, s.rows[0], s.groups, ps, 0)]
    ensures Reaches(env, steps + Reads(ps, k), s')
    ensures s' == s.(hydrations := map[0 := ReadUpTo(0, s.rows[0], s.groups, ps, k)])
  {
    hide Reaches, Apply, Enabled, Listing, ReadUpTo;
    if k == 0 {
      s' := s;
      assert steps + Reads(ps, 0) == steps;
    } else {
      var mid := LoneReads(env, steps, s, ps, k - 1);
      ReadShape(env, mid, 0, 0, ps, k - 1);
      ReachesOn(env, steps + Reads(ps, k - 1), mid, Read(0, ps));
      s' := Apply(env, mid, Read(0, ps));
      assert steps + Reads(ps, k - 1) + [Read(0, ps)] == steps + Reads(ps, k);
      assert mid.hydrations[0 := ReadUpTo(0, s.rows[0], s.groups, ps, k)]
             == map[0 := ReadUpTo(0, s.rows[0], s.groups, ps, k)];
    }
  }

  /** After a restart of the server the request is not cached, and the next access to it
      panics. */
  lemma LoneDeviceIsLost(env: Env, a: Device, protocol: ProtocolType, keyType: KeyType, helper: Helper)
    returns (b: seq<Sys>, steps: seq<Step>, chosen: seq<Device>)
    requires ValidEnv(env)
    ensures steps == LoneSteps(a, protocol, keyType) + [CastVote(0, a.id, true, map[], chosen, helper)]
                     + [Reboot] + [Ask(0, 0)] + Reads(Alone(a), 5)
    ensures Behaviour(env, b, steps) && |b| == |steps| + 1
    ensures Enabled(b[|steps|], Install(0)) && ReplyTo(env, b[|steps|], Install(0)) == Crashed
  {
    hide Reaches, Inv, Behaviour, Apply, Lone, Listing, Enabled, ReplyTo, ReadUpTo, Rebuild, Reads;
    var s := LoneRequest(env, a, protocol, keyType);
    var s';
    var first := LoneSteps(a, protocol, keyType);
    chosen, s' := LoneAccepts(env, a, first, s, helper);
    steps := first + [CastVote(0, a.id, true, map[], chosen, helper)];
    var down := Rebooted(env, s');
    ReachesOn(env, steps, s', Reboot);
    AskShape(env, down, 0, 0, down.rows[0], Alone(a));
    ReachesOn(env, steps + [Reboot], down, Ask(0, 0));
    var asked := Apply(env, down, Ask(0, 0));
    var read := LoneReads(env, steps + [Reboot] + [Ask(0, 0)], asked, Alone(a), 5);
    steps := steps + [Reboot] + [Ask(0, 0)] + Reads(Alone(a), 5);
    b := ReachesInRun(env, steps, read);
    InstallShape(env, read, 0, 0, Alone(a));
    FiveReads(0, read.rows[0], read.groups, Alone(a));
    var more := OneMore(env, b, steps, Install(0));
    CrashesIff(env, more, steps + [Install(0)], |steps|);
    InstallCrashes(env, read);
  }

  lemma Rebooted(env: Env, s: Sys) returns (s': Sys)
    ensures Enabled(s, Reboot) && s' == Apply(env, s, Reboot)
    ensures s'.rows == s.rows && s'.groups == s.groups && s'.cache == map[] && s'.hydrations == map[]
  {
    s' := Apply(env, s, Reboot);
  }

  lemma InstallCrashes(env: Env, s: Sys)
    requires 0 in s.hydrations && Complete(s.hydrations[0]) && Lone(Snapshot(s.hydrations[0]))
    ensures Enabled(s, Install(0)) && CrashingStep(env, s, Install(0))
  {
    hide Lone, Snapshot, Complete;
  }

  // ------------------------------------------------------------ a group of two devices

  function Two(a: Device, b: Device): seq<Participant> {
    [Participant(a, 1), Participant(b, 1)]
  }

  lemma TwoFacts(a: Device, b: Device)
    requires a.id != b.id
    ensures var ps := Two(a, b);
            && DistinctIds(ps) && IdSet(ps) == {a.id, b.id} && TotalShares(ps) == 2
            && SharesOf(ps, a.id) == 1 && SharesOf(ps, b.id) == 1
            && Counted([a.id, b.id], map[a.id := a, b.id := b], ps)
  {
    var ps := Two(a, b);
    PairWeights(a, b);
    TwoShares(a, b);
    assert ps[0] in ps && ps[1] in ps;
    SharesOfMember(ps, ps[0]);
    SharesOfMember(ps, ps[1]);
    assert multiset([a.id, b.id])[a.id] == 1 && multiset([a.id, b.id])[b.id] == 1;
  }

  function TwoInfo(a: Device, b: Device): TaskInfo {
    TaskInfo(GroupTask, "g", ElGamal, DecryptKey, Two(a, b), 0)
  }

  function Ask2(a: Device, b: Device): Step {
    RequestGroup(0, "g", [a.id, b.id], Two(a, b), 2, ElGamal, DecryptKey)
  }

  /** Only task 0 exists, and nothing else is going on. */
  ghost predicate Only(s: Sys) {
    s.rows.Keys == {0} && 0 in s.cache && s.hydrations == map[] && s.timer.todo == []
  }

  lemma TwoRequest(env: Env, a: Device, b: Device) returns (s: Sys, steps: seq<Step>)
    requires ValidEnv(env) && a.id != b.id
    ensures Reaches(env, steps, s) && Only(s)
    ensures s.rows[0].kind.GroupTask? && s.rows[0].threshold == 2 && s.rows[0].protocol == ElGamal
    ensures s.rows[0].keyType == DecryptKey
    ensures s.cache[0] == VotingPhase(TwoInfo(a, b), map[], 2, GroupContext(2))
  {
    hide Reaches, NewRow, Counted;
    var s1 := Apply(env, Start(), Register(a));
    ReachesStart(env);
    ReachesOn(env, [], Start(), Register(a));
    var s2 := Apply(env, s1, Register(b));
    ReachesOn(env, [] + [Register(a)], s1, Register(b));
    TwoFacts(a, b);
    assert s2.devices == map[a.id := a, b.id := b];
    steps := [] + [Register(a)] + [Register(b)] + [Ask2(a, b)];
    ReachesOn(env, [] + [Register(a)] + [Register(b)], s2, Ask2(a, b));
    s := Apply(env, s2, Ask2(a, b));
    assert NameValid("g");
    NewRowShape(GroupTask, "g", ElGamal, DecryptKey, 2, None, None, Two(a, b));
  }

  lemma OneYes(a: Bytes)
    ensures Accepts(map[a := 1]) == 1 && Rejects(map[a := 1]) == 0
  {
    var v: map<Bytes, int> := map[a := 1];
    assert Positive(v) == map[a := 1] && Negative(v) == map[];
    MapSumRemove(Positive(v), a);
    assert Positive(v) - {a} == map[];
  }

  lemma TwoYes(a: Bytes, b: Bytes)
    requires a != b
    ensures Accepts(map[a := 1, b := 1]) == 2
  {
    var v: map<Bytes, int> := map[a := 1, b := 1];
    assert Positive(v) == map[a := 1, b := 1];
    PairSum(a, b);
  }

  /** The first of the two accepts: voting goes on. */
  lemma FirstVote(env: Env, a: Device, b: Device, steps: seq<Step>, s: Sys, helper: Helper) returns (s': Sys)
    requires ValidEnv(env) && a.id != b.id && Reaches(env, steps, s) && Only(s)
    requires s.cache[0] == VotingPhase(TwoInfo(a, b), map[], 2, GroupContext(2))
    ensures Reaches(env, steps + [CastVote(0, a.id, true, map[], [], helper)], s') && Only(s')
    ensures s'.cache[0] == VotingPhase(TwoInfo(a, b), map[a.id := 1], 2, GroupContext(2))
    ensures SameTerms(s.rows[0], s'.rows[0]) && s'.rows[0].protocol == s.rows[0].protocol
        && s'.rows[0].keyType == s.rows[0].keyType
  {
    hide Inv, Leads, Accepts, Rejects, StoreDecision, IdSet, SharesOf, TotalShares, People;
    TwoFacts(a, b);
    OneYes(a.id);
    var task := WithVote(s.cache[0], a.id, true);
    assert task.decisions == map[a.id := 1];
    StoreDecisionKeeps(s.rows[0], a.id, true);
    var step := CastVote(0, a.id, true, map[], [], helper);
    ReachesOn(env, steps, s, step);
    s' := Apply(env, s, step);
  }

  /** A running task of the two devices: their indices, the round, the inbox. */
  ghost predicate Paired(run: Run, a: Device, b: Device, round: nat, input: map<nat, ClientMessage>) {
    && WellTyped(run) && run.info.kind.GroupTask? && run.info.attempts == 0 && run.protocol == ElGamal
    && run.certificatesSent && run.round == round
    && run.comm.active == map[0 := a, 1 := b] && run.comm.input == input
  }

  /** The first byte of the one id is smaller than that of the other. */
  predicate Before(a: Device, b: Device) {
    a.id != [] && b.id != [] && a.id[0] < b.id[0]
  }

  lemma FullOfTwo(a: Device, b: Device)
    requires Before(a, b)
    ensures FullMap(Two(a, b)) == map[0 := a, 1 := b]
  {
    TwoSorted(a, b);
    hide SortById;
    TwoExpanded(a, b);
    hide Expand;
  }

  lemma TwoSorted(a: Device, b: Device)
    requires Before(a, b)
    ensures SortById(Two(a, b)) == Two(a, b)
  {
    assert Less(a.id, b.id);
    hide Less, Before;
    var ps, tail := Two(a, b), [Participant(b, 1)];
    assert ps[1..] == tail && tail[1..] == [];
    assert SortById(tail) == tail;
  }

  lemma TwoExpanded(a: Device, b: Device)
    ensures Expand(Two(a, b)) == [a, b]
  {
    var ps, tail := Two(a, b), [Participant(b, 1)];
    assert ps[1..] == tail && tail[1..] == [];
    assert Expand(tail) == [b];
  }

  lemma PairedActive(row: TaskRow, run: Run, a: Device, b: Device)
    requires Before(a, b) && Listing(row.participants, Two(a, b)) && InfoMatches(row, run.info)
    requires ActiveMatches(row, run) && |run.comm.active| == 2
    ensures run.comm.active == map[0 := a, 1 := b]
  {
    hide Listing, ActiveMap, FullMap, TotalShares, DistinctIds, WithinShares, Sound;
    var ps := Two(a, b);
    TwoFacts(a, b);
    ActiveOfListing(row.participants, run.info.participants, ps, row.active);
    AllActiveIsFull(ps, row.active);
    FullOfTwo(a, b);
  }

  /** The second accepts too: the task starts, and its certificates are out. */
  lemma SecondVote(env: Env, a: Device, b: Device, steps: seq<Step>, s: Sys, helper: Helper)
    returns (s': Sys, chosen: seq<Device>)
    requires ValidEnv(env) && Before(a, b) && Reaches(env, steps, s) && Only(s)
    requires s.cache[0] == VotingPhase(TwoInfo(a, b), map[a.id := 1], 2, GroupContext(2))
    requires s.rows[0].kind.GroupTask? && s.rows[0].threshold == 2
    requires s.rows[0].protocol == ElGamal && s.rows[0].keyType == DecryptKey
    ensures Reaches(env, steps + [CastVote(0, b.id, true, map[], chosen, helper)], s') && Only(s')
    ensures s'.cache[0].RunningPhase? && Paired(s'.cache[0].run, a, b, 0, map[])
    ensures Listing(s'.rows[0].participants, Two(a, b))
  {
    hide Inv, TaskInv, RowInv, Leads, Decide, Draws, Paired, RowTotal, Listing;
    var slot := SlotOf(s, 0);
    InvParts(env, s, 0);
    TwoFacts(a, b);
    chosen := SomeDraw(slot, b.id, true, map[], s.now);
    var step := CastVote(0, b.id, true, map[], chosen, helper);
    ReachesOn(env, steps, s, step);
    s' := Apply(env, s, step);
    TwoStart(env, s.groups, slot, a, b, s.now, chosen, helper);
  }

  lemma TwoTracked(env: Env, groups: Groups, row: TaskRow, task: Task, a: Device, b: Device)
    requires TaskInv(env, groups, row, task) && task.VotingPhase? && task.info == TwoInfo(a, b) && a.id != b.id
    requires row.kind.GroupTask? && row.threshold == 2 && row.protocol == ElGamal && row.keyType == DecryptKey
    ensures Sound(row) && Matches(env, groups, row, task) && Listing(row.participants, Two(a, b))
  {
    hide Matches, Listing, RowBase, Voted, TotalShares, Unstarted, CountsWithin, MapSum, RowWeights, BestVotes;
    VotingIsBare(env, groups, row, task);
    VotedTerms(groups, row.(active := map[]), task);
    ListingTotal(row, Two(a, b));
    TwoFacts(a, b);
  }

  lemma TwoStart(env: Env, groups: Groups, slot: Slot, a: Device, b: Device, now: nat, chosen: seq<Device>,
                 helper: Helper)
    requires ValidEnv(env) && TaskInv(env, groups, slot.row, slot.task) && Before(a, b)
    requires slot.task == VotingPhase(TwoInfo(a, b), map[a.id := 1], 2, GroupContext(2))
    requires slot.row.kind.GroupTask? && slot.row.threshold == 2
    requires slot.row.protocol == ElGamal && slot.row.keyType == DecryptKey
    requires Draws(slot, b.id, true, map[], now, chosen)
    ensures var task := Decide(slot, b.id, true, chosen, helper).0.task;
            task.RunningPhase? && Paired(task.run, a, b, 0, map[])
    ensures Listing(Decide(slot, b.id, true, chosen, helper).0.row.participants, Two(a, b))
  {
    hide TaskInv, Matches, Sound, Decide, Draws, Listing, IdSet, SharesOf, Accepts, TotalShares, Paired;
    TwoTracked(env, groups, slot.row, slot.task, a, b);
    TwoFacts(a, b);
    TwoYes(a.id, b.id);
    var task := WithVote(slot.task, b.id, true);
    assert task.decisions == map[a.id := 1, b.id := 1];
    AcceptedIsStarted(env, groups, slot, b.id, true, map[], now, chosen, helper);
    DecideKeepsMatches(env, groups, slot, b.id, true, map[], now, chosen, helper);
    var slot' := Decide(slot, b.id, true, chosen, helper).0;
    DecideKeepsPeople(slot, b.id, true, chosen, helper);
    ListingByPeople(slot.row.participants, slot'.row.participants, Two(a, b));
    VotingNotBegun(env, groups, slot.row, slot.task);
    VoteKeepsAttempts(slot, b.id, chosen, helper);
    MatchedPair(env, groups, slot'.row, slot'.task.run, a, b);
  }

  lemma VoteKeepsAttempts(slot: Slot, id: Bytes, chosen: seq<Device>, helper: Helper)
    requires slot.task.VotingPhase? && id in IdSet(slot.task.info.participants)
    ensures var row' := Decide(slot, id, true, chosen, helper).0.row;
            row'.attempts == slot.row.attempts && row'.kind == slot.row.kind && row'.protocol == slot.row.protocol
  {
    hide Accepts, Rejects, Decided, TotalShares, CreateRun, Initialize, ActiveMap, Tally, SortById, IdSet;
  }

  lemma MatchedPair(env: Env, groups: Groups, row: TaskRow, run: Run, a: Device, b: Device)
    requires Matches(env, groups, row, RunningPhase(run)) && Before(a, b)
    requires row.kind.GroupTask? && row.protocol == ElGamal && row.attempts == 0 && Listing(row.participants, Two(a, b))
    requires run.comm.input == map[] && |run.comm.active| == 2 && run.round == 0
    ensures Paired(run, a, b, 0, map[])
  {
    hide Listing, RowBase, DeviceClosed, RoundReceived, ActiveMatches, AcceptedRow, Startable, ContextOf, RoundMatches;
    PairedActive(row, run, a, b);
  }

  lemma TwoRunning(env: Env, a: Device, b: Device, helper: Helper) returns (s: Sys, steps: seq<Step>)
    requires ValidEnv(env) && Before(a, b)
    ensures Reaches(env, steps, s) && Only(s) && At(s, a, b, 0, map[])
  {
    hide Reaches, Paired, Listing;
    var s1, steps1 := TwoRequest(env, a, b);
    var s2 := FirstVote(env, a, b, steps1, s1, helper);
    var chosen;
    s, chosen := SecondVote(env, a, b, steps1 + [CastVote(0, a.id, true, map[], [], helper)], s2, helper);
    steps := steps1 + [CastVote(0, a.id, true, map[], [], helper)] + [CastVote(0, b.id, true, map[], chosen, helper)];
  }

  // -------------------------------------------------------------------- their answers

  function Says(m: Bytes): ClientMessage {
    ClientMessage(Some(m), map[])
  }

  lemma PairIndices(c: Comm, a: Device, b: Device)
    requires a.id != b.id && c.protocol == ElGamal && c.active == map[0 := a, 1 := b]
    ensures Indices(c) == {0, 1} && IndicesOf(c, a.id) == {0} && IndicesOf(c, b.id) == {1}
    ensures forall id | id != a.id && id != b.id :: IndicesOf(c, id) == {}
    ensures OwnerOf(c, 0) == a && OwnerOf(c, 1) == b && |c.active| == 2
  {
    hide Indices, OwnerOf, IndicesOf;
    PairOwners(c, a, b);
    PairSize(c, a, b);
    forall id, i ensures i in IndicesOf(c, id) <==> (i == 0 && a.id == id) || (i == 1 && b.id == id) {
      PairIndexOf(c, a, b, id, i);
    }
    assert IndicesOf(c, a.id) == {0} && IndicesOf(c, b.id) == {1};
  }

  lemma PairSize(c: Comm, a: Device, b: Device)
    requires c.active == map[0 := a, 1 := b]
    ensures |c.active| == 2
  {
    assert |c.active| == |c.active.Keys| && c.active.Keys == {0, 1};
  }

  lemma PairIndexOf(c: Comm, a: Device, b: Device, id: Bytes, i: nat)
    requires c.protocol == ElGamal && c.active == map[0 := a, 1 := b]
    ensures i in IndicesOf(c, id) <==> (i == 0 && a.id == id) || (i == 1 && b.id == id)
  {
    hide Indices, OwnerOf;
    PairOwners(c, a, b);
  }

  lemma PairOwners(c: Comm, a: Device, b: Device)
    requires c.protocol == ElGamal && c.active == map[0 := a, 1 := b]
    ensures Indices(c) == {0, 1} && OwnerOf(c, 0) == a && OwnerOf(c, 1) == b
  {
    hide Shift;
    forall i: nat ensures i in Indices(c) <==> i == 0 || i == 1 {
      assert i in c.active.Keys <==> i == 0 || i == 1;
    }
  }

  lemma PairClosed(c: Comm, a: Device, b: Device)
    requires a.id != b.id && c.protocol == ElGamal && c.active == map[0 := a, 1 := b] && c.input.Keys <= {0, 1}
    ensures DeviceClosed(c) && (RoundReceived(c) <==> c.input.Keys == {0, 1})
    ensures (WaitingFor(c, a.id) <==> 0 !in c.input) && (WaitingFor(c, b.id) <==> 1 !in c.input)
  {
    hide Indices, IndicesOf, OwnerOf;
    PairIndices(c, a, b);
    forall id ensures IndicesOf(c, id) <= c.input.Keys || IndicesOf(c, id) !! c.input.Keys {
      if id != a.id && id != b.id { assert IndicesOf(c, id) == {}; }
    }
    assert |c.input| == |c.input.Keys|;
    SubsetSameSize(c.input.Keys, {0, 1});
  }

  lemma OneIndexBatch(c: Comm, id: Bytes, i: nat, m: Bytes)
    requires IndicesOf(c, id) == {i}
    ensures Receives(c, id, [Says(m)]).Stored? && Gathered(c, id, [Says(m)]) == c.(input := c.input[i := Says(m)])
  {
    hide IndicesOf, Ascend, Zip;
    OneInOrder(i, Says(m));
    assert WellShaped(c, Says(m));
    assert c.input + map[i := Says(m)] == c.input[i := Says(m)];
  }

  lemma OneInOrder(i: nat, msg: ClientMessage)
    ensures Ascend({i}) == [i] && Zip([i], [msg]) == map[i := msg]
  {
    hide Ascend;
    AscendInterval({i}, i, 1);
    assert [i][..0] == [] && [msg][..0] == [];
  }

  /** What the inbox is after the first device's answer, and after the second's. */
  lemma PairReceives(run: Run, a: Device, b: Device, round: nat, input: map<nat, ClientMessage>, m: Bytes)
    requires Paired(run, a, b, round, input) && a.id != b.id && input.Keys <= {0}
    ensures DeviceClosed(run.comm)
    ensures input == map[] ==>
              WaitingFor(run.comm, a.id) && Receives(run.comm, a.id, [Says(m)]).Stored?
              && AfterReceiving(run, a.id, [Says(m)]) == run.(comm := run.comm.(input := map[0 := Says(m)]))
    ensures WaitingFor(run.comm, b.id) && Receives(run.comm, b.id, [Says(m)]).Stored?
    ensures AfterReceiving(run, b.id, [Says(m)]) == run.(comm := run.comm.(input := input[1 := Says(m)]))
  {
    hide Indices, IndicesOf, OwnerOf, Gathered, Receives, DeviceClosed, WaitingFor, RoundReceived;
    PairIndices(run.comm, a, b);
    PairClosed(run.comm, a, b);
    OneIndexBatch(run.comm, a.id, 0, m);
    OneIndexBatch(run.comm, b.id, 1, m);
  }

  lemma FirstAnswer(run: Run, a: Device, b: Device, round: nat, m: Bytes, helper: Helper)
    requires Paired(run, a, b, round, map[]) && a.id != b.id && round <= 1
    ensures DeviceClosed(run.comm) && Enumerates([0], AfterReceiving(run, a.id, [Says(m)]).comm.input.Keys)
    ensures var (run', u) := Update(OneRound(), run, a.id, [Says(m)], [0], helper);
            u == Listen && Paired(run', a, b, round, map[0 := Says(m)])
  {
    hide Receives, DeviceClosed, WaitingFor, RoundReceived, AfterReceiving, NextStep;
    PairReceives(run, a, b, round, map[], m);
    PairClosed(run.comm.(input := map[0 := Says(m)]), a, b);
  }

  /** In the certificate round the second answer opens round 1. */
  lemma SecondAnswer(run: Run, a: Device, b: Device, m: Bytes, n: Bytes, helper: Helper)
    requires Paired(run, a, b, 0, map[0 := Says(m)]) && a.id != b.id
    ensures DeviceClosed(run.comm) && Enumerates([0, 1], AfterReceiving(run, b.id, [Says(n)]).comm.input.Keys)
    ensures var (run', u) := Update(OneRound(), run, b.id, [Says(n)], [0, 1], helper);
            u == NextRound(1) && Paired(run', a, b, 1, map[])
  {
    hide Receives, DeviceClosed, WaitingFor, RoundReceived, AfterReceiving, InitMessage, Indices, Finalize;
    PairReceives(run, a, b, 0, map[0 := Says(m)], n);
    var input := map[0 := Says(m)][1 := Says(n)];
    assert input.Keys == {0, 1};
    PairClosed(run.comm.(input := input), a, b);
  }

  lemma PairedOk(run: Run, a: Device, b: Device, round: nat, input: map<nat, ClientMessage>)
    requires Paired(run, a, b, round, input) && a.id != b.id && input.Keys <= {0} && round <= 1
    ensures ValidEnv(OneRound()) && RunOk(OneRound(), run)
  {
    hide DeviceClosed, RoundReceived, WaitingFor;
    PairClosed(run.comm, a, b);
    assert 1 !in run.comm.input && 0 in run.comm.active;
  }

  /** In the last round, a second answer that differs from the first panics. */
  lemma ClashingAnswer(run: Run, a: Device, b: Device, m: Bytes, n: Bytes, helper: Helper)
    requires Paired(run, a, b, 1, map[0 := Says(m)]) && a.id != b.id && m != n
    ensures DeviceClosed(run.comm) && Enumerates([0, 1], AfterReceiving(run, b.id, [Says(n)]).comm.input.Keys)
    ensures var (run', u) := Update(OneRound(), run, b.id, [Says(n)], [0, 1], helper);
            u == Panicked && run'.round == 2 && run'.info == run.info
  {
    hide Receives, DeviceClosed, WaitingFor, RoundReceived, AfterReceiving, FinalFrom, Indices, OwnerOf, RunOk, Update;
    PairReceives(run, a, b, 1, map[0 := Says(m)], n);
    PairedOk(run, a, b, 1, map[0 := Says(m)]);
    var input := map[0 := Says(m)][1 := Says(n)];
    var c := run.comm.(input := input);
    assert input.Keys == {0, 1};
    PairIndices(c, a, b);
    PairClosed(c, a, b);
    DifferencePanics(OneRound().verify, c, [0, 1]);
    UpdatePanicsIff(OneRound(), run, b.id, [Says(n)], [0, 1], helper);
    UpdateOk(OneRound(), run, b.id, [Says(n)], [0, 1], helper);
  }

  // --------------------------------------------------------------- batches in the run

  /** Task 0 is the one of the two devices, as far as this. */
  ghost predicate At(s: Sys, a: Device, b: Device, round: nat, input: map<nat, ClientMessage>) {
    && 0 in s.rows && 0 in s.cache && s.cache[0].RunningPhase? && Paired(s.cache[0].run, a, b, round, input)
    && Listing(s.rows[0].participants, Two(a, b))
  }

  lemma FirstBatch(s: Sys, a: Device, b: Device, round: nat, m: Bytes, helper: Helper)
    requires At(s, a, b, round, map[]) && a.id != b.id && round <= 1
    ensures var step := Submit(0, a.id, [Says(m)], 0, [0], helper);
            && Enabled(s, step)
            && var s' := Apply(OneRound(), s, step);
               && At(s', a, b, round, map[0 := Says(m)]) && s'.timer == s.timer && s'.now == s.now
               && s'.rows.Keys == s.rows.Keys && s'.lastUpdates == s.lastUpdates[0 := s.now]
  {
    hide Update, Paired, DeviceClosed, Enumerates, AfterReceiving, Listing;
    FirstAnswer(s.cache[0].run, a, b, round, m, helper);
    PairedAttempt(s.cache[0].run, a, b, round, map[]);
  }

  lemma PairedAttempt(run: Run, a: Device, b: Device, round: nat, input: map<nat, ClientMessage>)
    requires Paired(run, a, b, round, input)
    ensures run.info.attempts == 0 && run.round == round && run.info.kind.GroupTask?
  {
  }

  lemma SecondBatch(s: Sys, a: Device, b: Device, m: Bytes, n: Bytes, helper: Helper)
    requires At(s, a, b, 0, map[0 := Says(m)]) && a.id != b.id
    ensures var step := Submit(0, b.id, [Says(n)], 0, [0, 1], helper);
            && Enabled(s, step)
            && var s' := Apply(OneRound(), s, step);
               && At(s', a, b, 1, map[]) && s'.timer == s.timer && s'.now == s.now && s'.rows.Keys == s.rows.Keys
               && s'.lastUpdates == s.lastUpdates[0 := s.now]
  {
    hide Update, Paired, DeviceClosed, Enumerates, AfterReceiving, Listing;
    SecondAnswer(s.cache[0].run, a, b, m, n, helper);
    PairedAttempt(s.cache[0].run, a, b, 0, map[0 := Says(m)]);
  }

  /** Round 1 of the two devices is open. */
  lemma TwoInRoundOne(a: Device, b: Device, m: Bytes, helper: Helper) returns (s: Sys, steps: seq<Step>)
    requires Before(a, b)
    ensures Reaches(OneRound(), steps, s) && At(s, a, b, 1, map[]) && s.rows.Keys == {0} && s.timer.todo == []
    ensures 0 in s.lastUpdates && s.lastUpdates[0] == s.now
  {
    hide Reaches, Paired, Apply, Enabled, Listing;
    var env := OneRound();
    var s1, steps1 := TwoRunning(env, a, b, helper);
    var first, second := Submit(0, a.id, [Says(m)], 0, [0], helper), Submit(0, b.id, [Says(m)], 0, [0, 1], helper);
    FirstBatch(s1, a, b, 0, m, helper);
    ReachesOn(env, steps1, s1, first);
    var s2 := Apply(env, s1, first);
    SecondBatch(s2, a, b, m, m, helper);
    ReachesOn(env, steps1 + [first], s2, second);
    s := Apply(env, s2, second);
    steps := steps1 + [first] + [second];
  }

  /** Then the first device has sent its result. */
  lemma TwoHalfDone(a: Device, b: Device, m: Bytes, helper: Helper) returns (s: Sys, steps: seq<Step>)
    requires Before(a, b)
    ensures Reaches(OneRound(), steps, s) && At(s, a, b, 1, map[0 := Says(m)]) && s.rows.Keys == {0}
  {
    hide Reaches, Paired, Apply, Enabled, Listing;
    var s1, steps1 := TwoInRoundOne(a, b, m, helper);
    var step := Submit(0, a.id, [Says(m)], 0, [0], helper);
    FirstBatch(s1, a, b, 1, m, helper);
    ReachesOn(OneRound(), steps1, s1, step);
    s := Apply(OneRound(), s1, step);
    steps := steps1 + [step];
  }

  // ----------------------------------------------------------------------- the instances

  lemma ClashingBatch(s: Sys, a: Device, b: Device, m: Bytes, n: Bytes, helper: Helper)
    requires At(s, a, b, 1, map[0 := Says(m)]) && a.id != b.id && m != n
    ensures var step := Submit(0, b.id, [Says(n)], 0, [0, 1], helper);
            && Enabled(s, step) && ReplyTo(OneRound(), s, step) == Crashed
            && var s' := Apply(OneRound(), s, step);
               && 0 in s'.rows && s'.rows[0].round == s.rows[0].round
               && 0 in s'.cache && s'.cache[0].RunningPhase? && s'.cache[0].run.round == 2
  {
    hide Update, Paired, DeviceClosed, Enumerates, AfterReceiving, Listing;
    ClashingAnswer(s.cache[0].run, a, b, m, n, helper);
    PairedAttempt(s.cache[0].run, a, b, 1, map[0 := Says(m)]);
  }

  lemma StoredRoundOne(env: Env, s: Sys)
    requires ValidEnv(env) && Inv(env, s) && 0 in s.rows && 0 in s.cache && s.cache[0].RunningPhase?
    requires s.cache[0].run.round == 1 <= LastRound(env, s.cache[0].run)
    ensures s.rows[0].round == 1
  {
    hide Inv, TaskInv, RowInv, RunOk;
    InvParts(env, s, 0);
    var row, task := s.rows[0], s.cache[0];
    if row.kind.GroupTask? && !Sound(row) {
      UncertifiedGroup(env, s.groups, row, task);
    } else {
      RunningRounds(env, s.groups, row, task);
    }
  }

  /** Two devices that send different results in the last round: the call panics, and
      afterwards the live round is 2 and the stored one 1. */
  lemma DifferingResultsPart(a: Device, b: Device, m: Bytes, n: Bytes, helper: Helper)
    returns (run: seq<Sys>, steps: seq<Step>)
    requires Before(a, b) && m != n
    ensures Behaviour(OneRound(), run, steps) && |steps| >= 1 && |run| == |steps| + 1
    ensures var k := |steps| - 1;
            && steps[k] == Submit(0, b.id, [Says(n)], 0, [0, 1], helper)
            && Enabled(run[k], steps[k]) && ReplyTo(OneRound(), run[k], steps[k]) == Crashed
            && Parted(run[k + 1], 0) && !Parted(run[k], 0)
            && run[k + 1].rows[0].round == 1 && run[k + 1].cache[0].run.round == 2
  {
    hide Paired, Apply, Enabled, ReplyTo, Inv, Leads, Behaviour;
    var env := OneRound();
    var s, first := TwoHalfDone(a, b, m, helper);
    var step := Submit(0, b.id, [Says(n)], 0, [0, 1], helper);
    PairedAttempt(s.cache[0].run, a, b, 1, map[0 := Says(m)]);
    StoredRoundOne(env, s);
    ClashingBatch(s, a, b, m, n, helper);
    var before := ReachesInRun(env, first, s);
    run := OneMore(env, before, first, step);
    steps := first + [step];
  }

  /** A device with one share that sends two messages: the call succeeds, nothing comes
      of it, and the device is awaited as before. */
  lemma TwoMessagesAreDropped(a: Device, b: Device, m: Bytes, helper: Helper)
    returns (run: seq<Sys>, steps: seq<Step>)
    requires Before(a, b)
    ensures Behaviour(OneRound(), run, steps) && |steps| >= 1 && |run| == |steps| + 1
    ensures var k := |steps| - 1;
            && steps[k] == Submit(0, b.id, [Says(m), Says(m)], 0, [0], helper)
            && Enabled(run[k], steps[k]) && ReplyTo(OneRound(), run[k], steps[k]) == Done
            && 0 in run[k].cache && 0 in run[k + 1].cache && run[k + 1].cache[0] == run[k].cache[0]
            && run[k].cache[0].RunningPhase? && WaitingFor(run[k].cache[0].run.comm, b.id)
  {
    hide Paired, Apply, Enabled, ReplyTo, Inv, Leads, Behaviour, WaitingFor;
    var env := OneRound();
    var s, first := TwoHalfDone(a, b, m, helper);
    var step := Submit(0, b.id, [Says(m), Says(m)], 0, [0], helper);
    DroppedBatch(s, a, b, m, helper);
    var before := ReachesInRun(env, first, s);
    run := OneMore(env, before, first, step);
    steps := first + [step];
  }

  lemma DroppedBatch(s: Sys, a: Device, b: Device, m: Bytes, helper: Helper)
    requires At(s, a, b, 1, map[0 := Says(m)]) && a.id != b.id
    ensures WaitingFor(s.cache[0].run.comm, b.id)
    ensures var step := Submit(0, b.id, [Says(m), Says(m)], 0, [0], helper);
            && Enabled(s, step) && ReplyTo(OneRound(), s, step) == Done
            && 0 in Apply(OneRound(), s, step).cache && Apply(OneRound(), s, step).cache[0] == s.cache[0]
  {
    hide Paired, DeviceClosed, WaitingFor, Update, Enumerates, AfterReceiving, Listing;
    DroppedAnswer(s.cache[0].run, a, b, m, helper);
    PairedAttempt(s.cache[0].run, a, b, 1, map[0 := Says(m)]);
  }

  lemma DroppedAnswer(run: Run, a: Device, b: Device, m: Bytes, helper: Helper)
    requires Paired(run, a, b, 1, map[0 := Says(m)]) && a.id != b.id
    ensures WaitingFor(run.comm, b.id) && DeviceClosed(run.comm)
    ensures Enumerates([0], AfterReceiving(run, b.id, [Says(m), Says(m)]).comm.input.Keys)
    ensures Update(OneRound(), run, b.id, [Says(m), Says(m)], [0], helper) == (run, Listen)
  {
    hide Indices, IndicesOf, OwnerOf, RunOk, DeviceClosed, WaitingFor, Update, RoundReceived;
    PairReceives(run, a, b, 1, map[0 := Says(m)], m);
    PairIndices(run.comm, a, b);
    PairedOk(run, a, b, 1, map[0 := Says(m)]);
    assert AfterReceiving(run, b.id, [Says(m), Says(m)]) == run;
    DroppedIff(OneRound(), run, b.id, [Says(m), Says(m)], [0], helper);
  }

  lemma PairThreshold(env: Env, s: Sys, a: Device, b: Device)
    requires Inv(env, s) && At(s, a, b, 1, map[])
    ensures s.cache[0].run.comm.threshold == 2
  {
    hide Inv, TaskInv, RowInv, RowBase, Listing, AcceptedRow, ContextOf, Acceptable, ActiveMap, WithinShares,
         DeviceClosed, RoundReceived, SupportedPair, CheckThreshold, AcceptThreshold;
    InvParts(env, s, 0);
    OpenedMatches(env, s.groups, s.rows[0], s.cache[0]);
    PairSize(s.cache[0].run.comm, a, b);
  }

  /** What the first device's answer does, if it is a message without a broadcast. */
  lemma UnicastAnswer(run: Run, a: Device, b: Device, msg: ClientMessage, helper: Helper)
    requires Paired(run, a, b, 1, map[]) && a.id != b.id && run.comm.threshold == 2 && msg.broadcast == None
    ensures DeviceClosed(run.comm)
    ensures |msg.unicasts| == 1 ==>
              && Enumerates([0], AfterReceiving(run, a.id, [msg]).comm.input.Keys)
              && Update(OneRound(), run, a.id, [msg], [0], helper)
                 == (run.(comm := run.comm.(input := map[0 := msg])), Listen)
    ensures |msg.unicasts| != 1 ==>
              && Enumerates([], AfterReceiving(run, a.id, [msg]).comm.input.Keys)
              && Update(OneRound(), run, a.id, [msg], [], helper) == (run, Panicked)
  {
    hide Indices, IndicesOf, OwnerOf, DeviceClosed, WaitingFor, RoundReceived, Zip, Ascend, NextStep, Receives;
    PairIndices(run.comm, a, b);
    PairClosed(run.comm, a, b);
    PairClosed(run.comm.(input := map[0 := msg]), a, b);
    ReceivesIff(run.comm, a.id, [msg]);
    OneInOrder(0, msg);
    assert map[] + map[0 := msg] == map[0 := msg];
  }

  lemma UnicastBatch(s: Sys, a: Device, b: Device, msg: ClientMessage, helper: Helper)
    requires At(s, a, b, 1, map[]) && a.id != b.id && s.cache[0].run.comm.threshold == 2 && msg.broadcast == None
    ensures |msg.unicasts| == 1 ==>
              var step := Submit(0, a.id, [msg], 0, [0], helper);
              && Enabled(s, step) && ReplyTo(OneRound(), s, step) == Done
              && var s' := Apply(OneRound(), s, step);
                 0 in s'.cache && s'.cache[0].RunningPhase? && s'.cache[0].run.comm.input == map[0 := msg]
    ensures |msg.unicasts| != 1 ==>
              var step := Submit(0, a.id, [msg], 0, [], helper);
              Enabled(s, step) && ReplyTo(OneRound(), s, step) == Crashed
  {
    hide Paired, DeviceClosed, Update, Enumerates, AfterReceiving, Listing;
    UnicastAnswer(s.cache[0].run, a, b, msg, helper);
    PairedAttempt(s.cache[0].run, a, b, 1, map[]);
  }

  /** Of two shares one sends a message without a broadcast: if it addresses exactly one
      share it is stored, and otherwise the call panics. */
  lemma UnicastsAreCounted(a: Device, b: Device, m: Bytes, msg: ClientMessage, helper: Helper)
    returns (run: seq<Sys>, steps: seq<Step>)
    requires Before(a, b) && msg.broadcast == None
    ensures Behaviour(OneRound(), run, steps) && |steps| >= 1 && |run| == |steps| + 1
    ensures var k := |steps| - 1;
            && steps[k] == Submit(0, a.id, [msg], 0, if |msg.unicasts| == 1 then [0] else [], helper)
            && Enabled(run[k], steps[k])
            && ReplyTo(OneRound(), run[k], steps[k]) == (if |msg.unicasts| == 1 then Done else Crashed)
            && (|msg.unicasts| == 1 ==>
                  && 0 in run[k + 1].cache && run[k + 1].cache[0].RunningPhase?
                  && run[k + 1].cache[0].run.comm.input == map[0 := msg])
  {
    hide Paired, Apply, Enabled, ReplyTo, Inv, Leads, Behaviour;
    var env := OneRound();
    var s, first := TwoInRoundOne(a, b, m, helper);
    var step := Submit(0, a.id, [msg], 0, if |msg.unicasts| == 1 then [0] else [], helper);
    var before := ReachesInRun(env, first, s);
    AnyEnvIsValid();
    RunsKeepInv(env, before, first, |first|);
    PairThreshold(env, s, a, b);
    UnicastBatch(s, a, b, msg, helper);
    run := OneMore(env, before, first, step);
    steps := first + [step];
  }

  lemma OpenRound(env: Env, s: Sys, a: Device, b: Device)
    requires ValidEnv(env) && Inv(env, s) && At(s, a, b, 1, map[])
    ensures RestartCandidate(s.rows[0])
  {
    hide Inv, TaskInv, RowInv, Listing;
    PairedAttempt(s.cache[0].run, a, b, 1, map[]);
    InvParts(env, s, 0);
    RunningIsOpen(env, s.groups, s.rows[0], s.cache[0]);
    StoredRoundOne(env, s);
  }

  /** The timer finds the task stale 31 seconds later and puts it on its list. */
  lemma TwoListed(a: Device, b: Device, m: Bytes, helper: Helper) returns (s: Sys, steps: seq<Step>)
    requires Before(a, b)
    ensures Reaches(OneRound(), steps, s) && At(s, a, b, 1, map[]) && s.timer.todo == [0]
  {
    hide Paired, Inv, Leads, Listing, RestartCandidate, ValidEnv, StaleOf, WithTimes;
    var env := OneRound();
    var s1, steps1 := TwoInRoundOne(a, b, m, helper);
    AnyEnvIsValid();
    ReachesOn(env, steps1, s1, Wait(31));
    var s2 := Apply(env, s1, Wait(31));
    OpenRound(env, s2, a, b);
    var step := Query(s2.now, [0]);
    OneStale(s2, s2.now, 0);
    ReachesOn(env, steps1 + [Wait(31)], s2, step);
    s := Apply(env, s2, step);
    steps := steps1 + [Wait(31)] + [step];
  }

  lemma OneStale(s: Sys, clock: nat, tid: nat)
    requires Stale(s, clock, tid)
    ensures StaleOf(s, clock, [tid]) == [tid]
  {
    hide Stale;
    assert [tid][..0] == [];
  }

  lemma AnyEnvIsValid()
    ensures ValidEnv(OneRound())
  {
  }

  /** An update after the timer's query, and the restart follows at the very same time. */
  lemma RestartFollowsUpdate(a: Device, b: Device, m: Bytes, helper: Helper)
    returns (run: seq<Sys>, steps: seq<Step>, n: nat)
    requires Before(a, b)
    ensures Behaviour(OneRound(), run, steps) && n + 2 == |steps|
    ensures UpdatedAt(run, steps, n, 0) && RestartedAt(run, steps, n + 1, 0)
    ensures run[n].now == run[n + 1].now == run[n + 2].now
  {
    hide Reaches, Paired, Apply, Enabled, Behaviour, Listing;
    var env := OneRound();
    var s, first := TwoListed(a, b, m, helper);
    var update := Submit(0, a.id, [Says(m)], 0, [0], helper);
    FirstBatch(s, a, b, 1, m, helper);
    var before := ReachesInRun(env, first, s);
    var updated := OneMore(env, before, first, update);
    var s' := Apply(env, s, update);
    n := |first|;
    assert s'.timer.todo == [0];
    MayRestart(env, s', helper);
    run := OneMore(env, updated, first + [update], RestartNext(helper));
    steps := first + [update] + [RestartNext(helper)];
  }

  lemma MayRestart(env: Env, s: Sys, helper: Helper)
    requires s.timer.todo == [0] && 0 in s.rows && 0 in s.cache && s.cache[0].RunningPhase?
    ensures Enabled(s, RestartNext(helper)) && Apply(env, s, RestartNext(helper)).now == s.now
  {
    hide RestartTask;
  }

  /** The two devices agree, and the group is established. */
  lemma AgreeingAnswer(run: Run, a: Device, b: Device, m: Bytes, helper: Helper)
    requires Paired(run, a, b, 1, map[0 := Says(m)]) && a.id != b.id
    ensures DeviceClosed(run.comm) && Enumerates([0, 1], AfterReceiving(run, b.id, [Says(m)]).comm.input.Keys)
    ensures var u := Update(OneRound(), run, b.id, [Says(m)], [0, 1], helper).1;
            u.Finished? && u.result.GroupEstablished? && u.result.group.id == m
  {
    hide Receives, DeviceClosed, WaitingFor, RoundReceived, AfterReceiving, Indices, OwnerOf, RunOk, Update;
    PairReceives(run, a, b, 1, map[0 := Says(m)], m);
    PairedOk(run, a, b, 1, map[0 := Says(m)]);
    var input := map[0 := Says(m)][1 := Says(m)];
    var c := run.comm.(input := input);
    assert input.Keys == {0, 1};
    PairIndices(c, a, b);
    PairClosed(c, a, b);
    UnanimousFinishes(OneRound(), run, b.id, [Says(m)], [0, 1], helper, m);
  }

  lemma AgreeingBatch(s: Sys, a: Device, b: Device, m: Bytes, helper: Helper)
    requires At(s, a, b, 1, map[0 := Says(m)]) && a.id != b.id && m != [] && m !in s.groups
    ensures var step := Submit(0, b.id, [Says(m)], 0, [0, 1], helper);
            && Enabled(s, step)
            && var s' := Apply(OneRound(), s, step);
               && 0 in s'.rows && s'.rows[0].participants == s.rows[0].participants
               && 0 in s'.cache && s'.cache[0].FinishedPhase? && s'.cache[0].acknowledgements == {}
  {
    hide Update, Paired, DeviceClosed, Enumerates, AfterReceiving, Listing, NewGroup;
    AgreeingAnswer(s.cache[0].run, a, b, m, helper);
    PairedAttempt(s.cache[0].run, a, b, 1, map[0 := Says(m)]);
  }

  lemma NoGroupsYet(env: Env, b: seq<Sys>, steps: seq<Step>, s: Sys)
    requires ValidEnv(env) && Behaviour(env, b, steps) && |b| == |steps| + 1 && b[|steps|] == s
    requires s.rows.Keys == {0} && s.rows[0].result.None?
    ensures s.groups == map[]
  {
    hide Behaviour, FullyActive;
    RunsKeepOrigins(env, b, steps, |steps|);
  }

  /** A finished task is acknowledged by a device that does not take part: memory records
      it, the database does not. */
  lemma StrangerIsNotStored(a: Device, b: Device, x: Bytes, m: Bytes, helper: Helper)
    returns (run: seq<Sys>, steps: seq<Step>)
    requires Before(a, b) && x != a.id && x != b.id && m != []
    ensures Behaviour(OneRound(), run, steps) && |steps| >= 1 && |run| == |steps| + 1
    ensures var k := |steps| - 1;
            && steps[k] == Confirm(0, x) && FinishedIn(run[k + 1], 0) && Unstored(run[k + 1], 0)
            && run[k + 1].cache[0].acknowledgements == {x} && StoredAcks(run[k + 1].rows[0].participants) == {}
  {
    hide ReplyTo, Paired, Apply, Enabled, Inv, Leads, Behaviour, Listing, StoredAcks, RestartCandidate;
    var env := OneRound();
    AnyEnvIsValid();
    var s, first := TwoHalfDone(a, b, m, helper);
    var before := ReachesInRun(env, first, s);
    InvParts(env, s, 0);
    RunningIsOpen(env, s.groups, s.rows[0], s.cache[0]);
    NoGroupsYet(env, before, first, s);
    var step := Submit(0, b.id, [Says(m)], 0, [0, 1], helper);
    AgreeingBatch(s, a, b, m, helper);
    var done := OneMore(env, before, first, step);
    RunsKeepInv(env, done, first + [step], |first| + 1);
    ListedKeys(s.rows[0], a, b);
    StrangerConfirms(env, Apply(env, s, step), x);
    run := OneMore(env, done, first + [step], Confirm(0, x));
    steps := first + [step] + [Confirm(0, x)];
  }

  lemma ListedKeys(row: TaskRow, a: Device, b: Device)
    requires Listing(row.participants, Two(a, b)) && a.id != b.id
    ensures row.participants.Keys == {a.id, b.id}
  {
    TwoFacts(a, b);
  }

  lemma StrangerConfirms(env: Env, s: Sys, x: Bytes)
    requires Inv(env, s) && 0 in s.rows && FinishedIn(s, 0) && s.cache[0].acknowledgements == {}
    requires x !in s.rows[0].participants
    ensures Enabled(s, Confirm(0, x))
    ensures var s' := Apply(env, s, Confirm(0, x));
            && 0 in s'.rows && FinishedIn(s', 0) && Unstored(s', 0)
            && s'.cache[0].acknowledgements == {x} && StoredAcks(s'.rows[0].participants) == {}
  {
    hide Inv, TaskInv, RowInv, StoreAck, StoredAcks;
    InvParts(env, s, 0);
    AcksStoredIff(env, s.groups, s.rows[0], s.cache[0]);
    StoreAckKeeps(s.rows[0], x);
    assert {x} * s.rows[0].participants.Keys == {};
  }
}
