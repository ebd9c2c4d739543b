/** Where a group's shares and indices come from, over whole runs. */
module Origins {
  import opened Basics
  import opened Shares
  import opened Voting
  import opened Communication
  import opened Rounds
  import opened Store
  import opened Handlers
  import opened Refinement
  import opened Preservation
  import opened Invariant
  import opened System
  import opened Runs

  // --------------------------------------------------- what a task never changes

  /** Two rows of the same request. */
  predicate SameRequest(row: TaskRow, row': TaskRow) {
    && row'.kind == row.kind && row'.name == row.name && row'.protocol == row.protocol && row'.keyType == row.keyType
    && row'.threshold == row.threshold && row'.groupId == row.groupId && row'.data == row.data
    && People(row'.participants) == People(row.participants)
  }

  lemma DecideKeepsRequest(slot: Slot, id: Bytes, accept: bool, chosen: seq<Device>, helper: Helper)
    ensures SameRequest(slot.row, Decide(slot, id, accept, chosen, helper).0.row)
  {
    hide Settle, WithVote, IdSet, StoreDecision, People;
    StoreDecisionKeeps(slot.row, id, accept);
    if slot.task.VotingPhase? {
      SettleKeepsRequest(StoreDecision(slot.row, id, accept), WithVote(slot.task, id, accept), chosen, helper);
    }
  }

  lemma SettleKeepsRequest(row: TaskRow, task: Task, chosen: seq<Device>, helper: Helper)
    requires task.VotingPhase?
    ensures SameRequest(row, Settle(row, task, chosen, helper).0.row)
  {
    hide Verdict, TotalShares, CreateRun, Initialize, ActiveMap, Tally, People;
  }

  lemma UpdateKeepsRequest(env: Env, groups: Groups, slot: Slot, device: Bytes, msgs: seq<ClientMessage>,
                           attempt: nat, order: seq<nat>, helper: Helper)
    requires Applies(slot.task, device, msgs, order)
    ensures SameRequest(slot.row, UpdateTask(env, groups, slot, device, msgs, attempt, order, helper).0.row)
  {
    hide Update, Applies, People;
  }

  lemma RestartKeepsRequest(slot: Slot, helper: Helper)
    ensures SameRequest(slot.row, RestartTask(slot, helper).0.row)
  {
    hide Restart, People;
  }

  lemma StepKeepsRequest(env: Env, s: Sys, step: Step, tid: nat)
    requires Enabled(s, step) && s.cache.Keys <= s.rows.Keys && tid in s.rows
    ensures tid in Apply(env, s, step).rows && SameRequest(s.rows[tid], Apply(env, s, step).rows[tid])
  {
    hide Apply, Enabled, Handled, Touches, LeftAlone, SameRequest;
    if !Touches(s, step, tid) {
      Untouched(env, s, step, tid);
      AloneParts(s, step, Apply(env, s, step), tid);
      SameRequestTrans(s.rows[tid], s.rows[tid], s.rows[tid]);
    } else {
      TouchedStep(env, s, step, tid);
      HandledRequest(env, s, step, tid);
    }
  }

  lemma HandledRequest(env: Env, s: Sys, step: Step, tid: nat)
    requires Enabled(s, step) && Touches(s, step, tid) && tid in s.rows && tid in s.cache
    ensures SameRequest(s.rows[tid], Handled(env, s, step, tid).row)
  {
    hide Enabled, Decide, UpdateTask, StoreAck, RestartTask, People;
    match step
    case CastVote(_, device, accept, _, chosen, helper) =>
      DecideKeepsRequest(SlotOf(s, tid), device, accept, chosen, helper);
    case Submit(_, _, _, _, _, _) => SubmitKeepsRequest(env, s, step);
    case Confirm(_, device) => StoreAckKeeps(s.rows[tid], device);
    case RestartNext(helper) => RestartKeepsRequest(SlotOf(s, tid), helper);
  }

  lemma SubmitKeepsRequest(env: Env, s: Sys, step: Step)
    requires Enabled(s, step) && step.Submit?
    ensures SameRequest(s.rows[step.tid], Handled(env, s, step, step.tid).row)
  {
    hide UpdateTask, Applies, SameRequest;
    UpdateKeepsRequest(env, s.groups, SlotOf(s, step.tid), step.device, step.msgs, step.attempt, step.order, step.helper);
  }

  /** Every task of a run was made by a request, and has been that request ever
      since. */
  lemma {:induction false} WasRequested(env: Env, b: seq<Sys>, steps: seq<Step>, n: nat, tid: nat) returns (k: nat)
    requires ValidEnv(env) && Behaviour(env, b, steps) && n < |b| && tid in b[n].rows
    ensures k < n && tid !in b[k].rows && tid in b[k + 1].rows && SameRequest(b[k + 1].rows[tid], b[n].rows[tid])
    decreases n
  {
    hide ReplyTo, Behaviour, Apply, Enabled, Inv, SameRequest;
    BeginsEmpty(env, b, steps);
    assert n > 0;
    StepAt(env, b, steps, n);
    if tid !in b[n - 1].rows {
      k := n - 1;
      SameRequestTrans(b[n].rows[tid], b[n].rows[tid], b[n].rows[tid]);
    } else {
      k := WasRequested(env, b, steps, n - 1, tid);
      RunsKeepInv(env, b, steps, n - 1);
      CacheHasRows(env, b[n - 1]);
      StepKeepsRequest(env, b[n - 1], steps[n - 1], tid);
      SameRequestTrans(b[k + 1].rows[tid], b[n - 1].rows[tid], b[n].rows[tid]);
    }
  }

  lemma SameRequestTrans(a: TaskRow, b: TaskRow, c: TaskRow)
    ensures SameRequest(a, a)
    ensures SameRequest(a, b) && SameRequest(b, c) ==> SameRequest(a, c)
  {
  }

  // ----------------------------------------------------------- where groups come from

  /** All shares took part: the index map was the full one. */
  ghost predicate FullyActive(row: TaskRow) {
    forall ps | Listing(row.participants, ps) :: ActiveMap(ps, row.active) == FullMap(ps)
  }

  /** The row of the task that established the group. */
  ghost predicate Establishes(row: TaskRow, gid: Bytes, g: GroupRow) {
    && row.kind.GroupTask? && row.result == Some(Success(gid))
    && g.participants == People(row.participants) && FullyActive(row)
  }

  ghost predicate GroupsHaveOrigins(s: Sys) {
    forall gid | gid in s.groups :: exists tid :: tid in s.rows && Establishes(s.rows[tid], gid, s.groups[gid])
  }

  lemma EndingEstablishes(row: TaskRow, row': TaskRow, gid: Bytes, g: GroupRow)
    requires Establishes(row, gid, g) && SameEnding(row, row')
    ensures Establishes(row', gid, g)
  {
    hide Listing, ActiveMap, FullMap, People, StoredVotes;
    forall ps | Listing(row'.participants, ps) ensures ActiveMap(ps, row'.active) == FullMap(ps) {
      ListingByPeople(row'.participants, row.participants, ps);
    }
  }

  /** A map with as many indices as there are shares is the full map. */
  lemma AllActiveIsFull(ps: seq<Participant>, counts: map<Bytes, nat>)
    requires DistinctIds(ps) && |ActiveMap(ps, counts)| == TotalShares(ps)
    ensures ActiveMap(ps, counts) == FullMap(ps)
  {
    ActiveIsSubmap(ps, ps, counts);
    SortAscending(ps);
    assert TotalShares(SortById(ps)) == TotalShares(ps) by { TotalForgetsOrder(SortById(ps), ps); }
    var full, active := FullMap(ps), ActiveMap(ps, counts);
    hide ActiveMap, SortById;
    FullSize(ps);
    SubsetSameSize(active.Keys, full.Keys);
    assert active.Keys == full.Keys;
  }

  lemma FullSize(ps: seq<Participant>)
    ensures |FullMap(ps)| == |Expand(SortById(ps))|
  {
    KeysBelow(FullMap(ps).Keys, |Expand(SortById(ps))|);
  }

  lemma {:induction false} KeysBelow(keys: set<nat>, n: nat)
    requires forall i: nat :: i in keys <==> i < n
    ensures |keys| == n
    decreases n
  {
    if n > 0 {
      KeysBelow(keys - {n - 1}, n - 1);
      assert keys == keys - {n - 1} + {n - 1};
    } else {
      assert keys == {};
    }
  }

  /** A running group task uses every index. */
  lemma GroupTaskUsesAll(env: Env, groups: Groups, row: TaskRow, run: Run)
    requires RowBase(groups, row) && RunningMatches(env, groups, row, run) && row.kind.GroupTask?
    ensures FullyActive(row)
  {
    hide RunOk, ActiveMap, FullMap, Listing, RowBase, WithinShares, Startable, AcceptedRow, ContextOf, TotalShares;
    forall ps | Listing(row.participants, ps) ensures ActiveMap(ps, row.active) == FullMap(ps) {
      ActiveOfListing(row.participants, run.info.participants, ps, row.active);
      InfosAgree(row, run.info, ps);
      ListingDistinct(row.participants, ps);
      AllActiveIsFull(ps, row.active);
    }
  }

  /** An update that adds a group ends the task that established it. */
  lemma NewGroupHasOrigin(env: Env, groups: Groups, slot: Slot, device: Bytes, msgs: seq<ClientMessage>,
                          attempt: nat, order: seq<nat>, helper: Helper, gid: Bytes)
    requires ValidEnv(env) && TaskInv(env, groups, slot.row, slot.task) && Applies(slot.task, device, msgs, order)
    requires var (_, groups', _) := UpdateTask(env, groups, slot, device, msgs, attempt, order, helper);
             gid in groups' && gid !in groups
    ensures var (slot', groups', _) := UpdateTask(env, groups, slot, device, msgs, attempt, order, helper);
            Establishes(slot'.row, gid, groups'[gid])
  {
    hide Matches, Tracked, Applies, Update, RowBase, RunningMatches, FullyActive, Unstarted, UpdateTask, Establishes,
         SameStanding, CountsWithin;
    if !Tracked(slot.row) {
      if slot.row.kind.GroupTask? {
        UpdateUnstartedGroup(env, groups, slot, device, msgs, attempt, order, helper);
      } else {
        UpdateWaking(env, groups, slot, device, msgs, attempt, order, helper);
      }
    } else {
      NewGroupEnds(env, groups, slot, device, msgs, attempt, order, helper, gid);
      var row, run := slot.row, slot.task.run;
      RunningParts(env, groups, row, run);
      AppliesParts(run, device, msgs, order);
      UpdateResult(env, run, device, msgs, order, helper);
      KindOfResult(run, Update(env, run, device, msgs, order, helper).1.result);
      GroupRunParts(env, groups, row, run);
      GroupTaskUsesAll(env, groups, row, run);
      EndsEstablished(row, UpdateTask(env, groups, slot, device, msgs, attempt, order, helper).0.row, gid,
                      UpdateTask(env, groups, slot, device, msgs, attempt, order, helper).1[gid]);
    }
  }

  lemma NewGroupEnds(env: Env, groups: Groups, slot: Slot, device: Bytes, msgs: seq<ClientMessage>,
                     attempt: nat, order: seq<nat>, helper: Helper, gid: Bytes)
    requires Applies(slot.task, device, msgs, order)
    requires var (_, groups', _) := UpdateTask(env, groups, slot, device, msgs, attempt, order, helper);
             gid in groups' && gid !in groups
    ensures slot.task.RunningPhase? && DeviceClosed(slot.task.run.comm)
            && Enumerates(order, AfterReceiving(slot.task.run, device, msgs).comm.input.Keys)
    ensures var (slot', groups', _) := UpdateTask(env, groups, slot, device, msgs, attempt, order, helper);
            && slot'.row.result == Some(Success(gid)) && groups'[gid].participants == People(slot.row.participants)
            && slot'.row.participants == slot.row.participants && slot'.row.active == slot.row.active
                && slot'.row.kind == slot.row.kind
    ensures var u := Update(env, slot.task.run, device, msgs, order, helper).1; u.Finished? && u.result.GroupEstablished?
  {
    hide Update, People, DeviceClosed, Enumerates, AfterReceiving;
  }

  lemma EndsEstablished(row: TaskRow, row': TaskRow, gid: Bytes, g: GroupRow)
    requires FullyActive(row) && row.kind.GroupTask?
    requires row'.participants == row.participants && row'.active == row.active && row'.kind == row.kind
    requires row'.result == Some(Success(gid)) && g.participants == People(row.participants)
    ensures Establishes(row', gid, g)
  {
    hide People, Listing, ActiveMap, FullMap;
  }

  lemma KindOfResult(run: Run, result: TaskResult)
    requires ResultMadeBy(run, result)
    ensures result.GroupEstablished? <==> run.info.kind.GroupTask?
  {
  }

  /** Groups are never changed or removed. */
  lemma StepExtendsGroups(env: Env, s: Sys, step: Step)
    requires ValidEnv(env) && Inv(env, s) && Enabled(s, step)
    ensures Extends(s.groups, Apply(env, s, step).groups)
    ensures !step.Submit? ==> Apply(env, s, step).groups == s.groups
  {
    hide Inv, Apply, Enabled;
    if step.Submit? {
      SubmitExtendsGroups(env, s, step);
    } else {
      GroupsUnchanged(env, s, step);
    }
  }

  lemma SubmitExtendsGroups(env: Env, s: Sys, step: Step)
    requires ValidEnv(env) && Inv(env, s) && Enabled(s, step) && step.Submit?
    ensures Extends(s.groups, Apply(env, s, step).groups)
  {
    InvParts(env, s, step.tid);
    hide Inv, TaskInv, RowInv, UpdateTask, Applies, GroupOk;
    UpdateKeeps(env, s.groups, SlotOf(s, step.tid), step.device, step.msgs, step.attempt, step.order, step.helper);
  }

  lemma GroupsUnchanged(env: Env, s: Sys, step: Step)
    requires Enabled(s, step) && !step.Submit?
    ensures Apply(env, s, step).groups == s.groups
  {
    hide Put, Decide, Acknowledge, RestartTask, Rebuild, NewGroupTask, NewThresholdTask, Draws, Applies, Counted,
         Listing, GroupListing, StaleOf, WithTimes, QueryAnswer, ReadMore, Snapshot, Complete, Touched;
  }

  lemma StepKeepsOrigins(env: Env, s: Sys, step: Step)
    requires ValidEnv(env) && Inv(env, s) && Enabled(s, step) && GroupsHaveOrigins(s)
    ensures GroupsHaveOrigins(Apply(env, s, step))
  {
    hide Inv, Apply, Enabled, Establishes, SameEnding;
    var s' := Apply(env, s, step);
    StepExtendsGroups(env, s, step);
    forall gid | gid in s'.groups ensures exists tid :: tid in s'.rows && Establishes(s'.rows[tid], gid, s'.groups[gid]) {
      if gid in s.groups {
        var tid :| tid in s.rows && Establishes(s.rows[tid], gid, s.groups[gid]);
        assert s.rows[tid].result.Some? by { EstablishedEnded(s.rows[tid], gid, s.groups[gid]); }
        StepKeepsEnding(env, s, step, tid);
        EndingEstablishes(s.rows[tid], s'.rows[tid], gid, s.groups[gid]);
      } else {
        SubmitEstablishes(env, s, step, gid);
      }
    }
  }

  lemma EstablishedEnded(row: TaskRow, gid: Bytes, g: GroupRow)
    requires Establishes(row, gid, g)
    ensures row.result.Some?
  {
  }

  lemma SubmitEstablishes(env: Env, s: Sys, step: Step, gid: Bytes)
    requires ValidEnv(env) && Inv(env, s) && Enabled(s, step) && step.Submit?
    requires gid in Apply(env, s, step).groups && gid !in s.groups
    ensures var s' := Apply(env, s, step); step.tid in s'.rows && Establishes(s'.rows[step.tid], gid, s'.groups[gid])
  {
    InvParts(env, s, step.tid);
    hide Inv, TaskInv, RowInv, UpdateTask, Applies, Establishes;
    NewGroupHasOrigin(env, s.groups, SlotOf(s, step.tid), step.device, step.msgs, step.attempt, step.order,
        step.helper, gid);
  }

  lemma NoGroupsNoOrigins(s: Sys)
    requires Empty(s)
    ensures GroupsHaveOrigins(s)
  {
  }

  lemma {:induction false} RunsKeepOrigins(env: Env, b: seq<Sys>, steps: seq<Step>, n: nat)
    requires ValidEnv(env) && Behaviour(env, b, steps) && n < |b|
    ensures GroupsHaveOrigins(b[n])
  {
    hide *;
    BeginsEmpty(env, b, steps);
    if n == 0 {
      NoGroupsNoOrigins(b[0]);
    } else {
      RunsKeepOrigins(env, b, steps, n - 1);
      RunsKeepInv(env, b, steps, n - 1);
      StepAt(env, b, steps, n);
      StepKeepsOrigins(env, b[n - 1], steps[n - 1]);
    }
  }

  // --------------------------------------------------- the indices of a group's tasks

  lemma RunningInGroup(groups: Groups, row: TaskRow, run: Run, origin: TaskRow, gid: Bytes,
      ps: seq<Participant>)
    requires RowBase(groups, row) && InfoMatches(row, run.info) && ActiveMatches(row, run)
    requires row.groupId == Some(gid) && !row.kind.GroupTask?
    requires gid in groups && Establishes(origin, gid, groups[gid]) && Listing(origin.participants, ps)
    ensures run.comm.active.Keys <= ActiveMap(ps, origin.active).Keys
    ensures forall i | i in run.comm.active :: run.comm.active[i] == ActiveMap(ps, origin.active)[i]
  {
    hide RunOk, ActiveMap, FullMap, Listing, WithinShares, GroupOk, RowKeys, AcceptedRow, ContextOf, RowTotal, People,
         StoredAcks;
    ListingByPeople(origin.participants, row.participants, ps);
    ListingDistinct(row.participants, ps);
    ListingUnique(row.participants, ps, run.info.participants);
    ActiveIsSubmap(ps, run.info.participants, row.active);
  }

  /** The indices in use by a signing or decryption task are, device by device, the
      indices in use when its group was established. */
  lemma IndicesStayWithDevices(env: Env, b: seq<Sys>, steps: seq<Step>, n: nat, tid: nat)
    requires ValidEnv(env) && Behaviour(env, b, steps) && n < |b|
    requires tid in b[n].cache && tid in b[n].rows && b[n].cache[tid].RunningPhase? && !b[n].rows[tid].kind.GroupTask?
    ensures exists origin, gid ::
              && origin in b[n].rows && gid in b[n].groups && b[n].rows[tid].groupId == Some(gid)
              && Establishes(b[n].rows[origin], gid, b[n].groups[gid])
              && forall ps | Listing(b[n].rows[origin].participants, ps) ::
                   var first, now := ActiveMap(ps, b[n].rows[origin].active), b[n].cache[tid].run.comm.active;
                   now.Keys <= first.Keys && forall i | i in now :: now[i] == first[i]
  {
    hide ReplyTo, Inv, Behaviour, TaskInv, RowInv, RowBase, ActiveMatches, InfoMatches, Establishes, ActiveMap,
         Listing;
    var s := b[n];
    RunsKeepInv(env, b, steps, n);
    InvParts(env, s, tid);
    RunsKeepOrigins(env, b, steps, n);
    var row, run := s.rows[tid], s.cache[tid].run;
    RunningActive(env, s.groups, row, s.cache[tid]);
    GroupOfTask(s.groups, row);
    var gid := row.groupId.value;
    var origin :| origin in s.rows && Establishes(s.rows[origin], gid, s.groups[gid]);
    forall ps | Listing(s.rows[origin].participants, ps)
      ensures var first := ActiveMap(ps, s.rows[origin].active);
              run.comm.active.Keys <= first.Keys && forall i | i in run.comm.active :: run.comm.active[i] == first[i]
    {
      RunningInGroup(s.groups, row, run, s.rows[origin], gid, ps);
    }
  }

  /** Started or only seeming to run, the task uses the map its stored counts stand for. */
  lemma RunningActive(env: Env, groups: Groups, row: TaskRow, task: Task)
    requires TaskInv(env, groups, row, task) && task.RunningPhase? && !row.kind.GroupTask?
    ensures RowBase(groups, row) && InfoMatches(row, task.run.info) && ActiveMatches(row, task.run)
  {
    hide Tracked, RowBase, RunOk, AcceptedRow, ActiveMatches, ContextOf, CountsWithin, InfoMatches, RoundMatches,
         Startable, UnstartedRow, RowTotal;
    if !Tracked(row) {
      UnstartedParts(env, groups, row, task);
    }
  }

  lemma GroupOfTask(groups: Groups, row: TaskRow)
    requires RowBase(groups, row) && !row.kind.GroupTask?
    ensures row.groupId.Some? && row.groupId.value in groups
  {
  }

  // -------------------------------------------------------- shares there and back

  /** The device ids a group is reported with: each as often as it has shares. */
  function ReportedIds(shares: map<Bytes, nat>, order: seq<Bytes>): seq<Bytes>
    requires forall id | id in order :: id in shares
  {
    if order == [] then [] else seq(shares[order[0]], _ => order[0]) + ReportedIds(shares, order[1..])
  }

  /** `order` is a walk of the map. */
  ghost predicate Walk(shares: map<Bytes, nat>, order: seq<Bytes>) {
    && (forall id :: id in order <==> id in shares)
    && forall i, j | 0 <= i < j < |order| :: order[i] != order[j]
  }

  lemma {:induction false} RepeatedOften(id: Bytes, n: nat, x: Bytes)
    ensures multiset(seq(n, _ => id))[x] == if x == id then n else 0
  {
    if n > 0 {
      RepeatedOften(id, n - 1, x);
      assert seq(n, _ => id) == seq(n - 1, _ => id) + [id];
    }
  }

  lemma {:induction false} ReportedOften(shares: map<Bytes, nat>, order: seq<Bytes>, x: Bytes)
    requires forall id | id in order :: id in shares
    requires forall i, j | 0 <= i < j < |order| :: order[i] != order[j]
    ensures multiset(ReportedIds(shares, order))[x] == if x in order then shares[x] else 0
  {
    if order != [] {
      RepeatedOften(order[0], shares[order[0]], x);
      ReportedOften(shares, order[1..], x);
      assert x in order <==> x == order[0] || x in order[1..];
    }
  }

  /** The part of the request that names known devices. */
  function Known(requested: seq<Bytes>, devices: map<Bytes, Device>): seq<Bytes> {
    if requested == [] then []
    else (if requested[0] in devices then [requested[0]] else []) + Known(requested[1..], devices)
  }

  lemma {:induction false} KnownOften(requested: seq<Bytes>, devices: map<Bytes, Device>, x: Bytes)
    ensures multiset(Known(requested, devices))[x] == if x in devices then multiset(requested)[x] else 0
  {
    if requested != [] {
      KnownOften(requested[1..], devices, x);
      assert requested == [requested[0]] + requested[1..];
    }
  }

  lemma RequestedShares(requested: seq<Bytes>, devices: map<Bytes, Device>, ps: seq<Participant>, row: TaskRow, x: Bytes)
    requires Counted(requested, devices, ps) && Listing(row.participants, ps)
    ensures (if x in row.participants then row.participants[x].shares else 0)
            == if x in devices then multiset(requested)[x] else 0
  {
    if x in row.participants {
      var p :| p in ps && p.device.id == x;
    } else {
      assert x !in IdSet(ps);
    }
  }

  lemma NewGroupRow(env: Env, s: Sys, step: Step, tid: nat)
    requires Enabled(s, step) && tid !in s.rows && tid in Apply(env, s, step).rows
        && Apply(env, s, step).rows[tid].kind.GroupTask?
    ensures step.RequestGroup? && step.tid == tid && Counted(step.requested, s.devices, step.listing)
    ensures Listing(Apply(env, s, step).rows[tid].participants, step.listing)
  {
    hide Enabled, Apply, Requested, Counted, Listing;
    NewTaskIsRequested(env, s, step, tid);
    RequestedParts(s, step);
    GroupRequestListing(s, step);
  }

  lemma GroupRequestListing(s: Sys, step: Step)
    requires Enabled(s, step) && step.RequestGroup? && Requested(s, step).Some?
    ensures Counted(step.requested, s.devices, step.listing)
    ensures Listing(Requested(s, step).value.row.participants, step.listing)
  {
    hide Counted, Listing, NewRow, TotalShares, NameValid;
    CountedOnce(step.requested, s.devices, step.listing);
    NewRowListing(GroupTask, step.name, step.protocol, step.keyType, step.threshold, None, None, step.listing);
  }

  /** Through counting, task rows, group rows and expansion, in any order: a group
      is reported with exactly the known devices of the request that made it, each
      as often as it was named there. */
  lemma SharesRoundTrip(env: Env, b: seq<Sys>, steps: seq<Step>, n: nat, gid: Bytes, order: seq<Bytes>)
    requires ValidEnv(env) && Behaviour(env, b, steps) && n < |b| && gid in b[n].groups
    requires Walk(GroupOf(gid, b[n].groups[gid]).shares, order)
    ensures exists k | 0 <= k < n ::
              && steps[k].RequestGroup? && steps[k].tid in b[n].rows
              && Establishes(b[n].rows[steps[k].tid], gid, b[n].groups[gid])
              && multiset(ReportedIds(GroupOf(gid, b[n].groups[gid]).shares,
                  order)) == multiset(Known(steps[k].requested, b[k].devices))
  {
    hide Inv, Behaviour, Apply, Enabled, FullyActive, Counted, Listing;
    BeginsEmpty(env, b, steps);
    RunsKeepOrigins(env, b, steps, n);
    var g := b[n].groups[gid];
    var tid :| tid in b[n].rows && Establishes(b[n].rows[tid], gid, g);
    var k := WasRequested(env, b, steps, n, tid);
    StepAt(env, b, steps, k + 1);
    NewGroupRow(env, b[k], steps[k], tid);
    var row, shares := b[k + 1].rows[tid], GroupOf(gid, g).shares;
    forall x ensures multiset(ReportedIds(shares, order))[x] == multiset(Known(steps[k].requested, b[k].devices))[x] {
      ReportedOften(shares, order, x);
      KnownOften(steps[k].requested, b[k].devices, x);
      RequestedShares(steps[k].requested, b[k].devices, steps[k].listing, row, x);
      assert x in row.participants <==> x in People(row.participants);
    }
  }
}
