/** What a task is, told from the request that made it, over whole runs. */
module Requests {
  import opened Basics
  import opened Shares
  import opened Voting
  import opened Communication
  import opened Rounds
  import opened Store
  import opened Handlers
  import opened Refinement
  import opened Preservation
  import opened Invariant
  import opened System
  import opened Runs
  import opened Timer
  import opened Origins

  // ---------------------------------------------------------- from request to rows

  /** The row is what the step asks for: a group of the known devices among those named,
      each with as many shares as it was named times. */
  ghost predicate AskedGroup(s: Sys, step: Step, tid: nat, row: TaskRow) {
    && step.RequestGroup? && step.tid == tid && tid !in s.rows
    && row.kind == GroupTask && row.name == step.name && row.protocol == step.protocol && row.keyType == step.keyType
    && row.threshold == step.threshold && row.groupId == None && row.data == None
    && (forall id :: id in row.participants <==> id in step.requested && id in s.devices)
    && forall id | id in row.participants ::
         row.participants[id].device == s.devices[id] && row.participants[id].shares == multiset(step.requested)[id]
  }

  /** The row is what the step asks for: work on the given data by the given group, under
      its parameters and by its participants. */
  ghost predicate AskedTask(s: Sys, step: Step, tid: nat, row: TaskRow) {
    && step.RequestTask? && step.tid == tid && tid !in s.rows && step.gid in s.groups
    && var g := s.groups[step.gid];
       && row.kind == (match g.keyType
                       case PdfKey => PdfTask
                       case ChallengeKey => ChallengeTask
                       case DecryptKey => DecryptTask)
       && (step.decrypt <==> g.keyType == DecryptKey)
       && row.name == step.name && row.data == Some(step.data) && row.groupId == Some(step.gid)
       && row.threshold == g.threshold && row.protocol == g.protocol && row.keyType == g.keyType
       && (forall id :: id in row.participants <==> id in g.participants)
       && forall id | id in row.participants ::
            && row.participants[id].device == g.participants[id].device
            && row.participants[id].shares == g.participants[id].shares
  }

  lemma NewRowShape(kind: TaskType, name: string, protocol: ProtocolType, keyType: KeyType, threshold: nat,
                    groupId: Option<Bytes>, data: Option<Bytes>, ps: seq<Participant>)
    ensures var row := NewRow(kind, name, protocol, keyType, threshold, groupId, data, ps);
            && row.kind == kind && row.name == name && row.protocol == protocol && row.keyType == keyType
            && row.threshold == threshold && row.groupId == groupId && row.data == data
            && row.result.None? && row.round == 0 && row.attempts == 0 && row.active == map[]
  {
  }

  lemma NewGroupIsAsked(s: Sys, step: Step)
    requires Enabled(s, step) && step.RequestGroup? && Requested(s, step).Some?
    ensures AskedGroup(s, step, step.tid, Requested(s, step).value.row)
  {
    GroupRequestListing(s, step);
    var row := Requested(s, step).value.row;
    hide NewRow, TotalShares, NameValid;
    NewRowShape(GroupTask, step.name, step.protocol, step.keyType, step.threshold, None, None, step.listing);
    forall id ensures id in row.participants <==> id in step.requested && id in s.devices {
      assert id in IdSet(step.listing) <==> id in step.requested && id in s.devices;
    }
    forall id | id in row.participants
      ensures row.participants[id].device == s.devices[id]
      ensures row.participants[id].shares == multiset(step.requested)[id]
    {
      var p :| p in step.listing && p.device.id == id;
    }
  }

  lemma NewTaskIsAsked(env: Env, s: Sys, step: Step)
    requires Inv(env, s) && Enabled(s, step) && step.RequestTask? && Requested(s, step).Some?
    ensures AskedTask(s, step, step.tid, Requested(s, step).value.row)
  {
    hide Inv, NewRow, NameValid, Listing, People;
    GroupsOk(env, s, step.gid);
    var g, row := s.groups[step.gid], Requested(s, step).value.row;
    NewRowShape(ThresholdKind(g.keyType), step.name, g.protocol, g.keyType, g.threshold, Some(step.gid), Some(step.data),
                step.listing);
    NewTaskPeople(step.gid, g, step.decrypt, step.name, step.data, step.listing);
    PeopleAre(row.participants, g.participants);
  }

  lemma NewTaskPeople(id: Bytes, g: GroupRow, decrypt: bool, name: string, data: Bytes, ps: seq<Participant>)
    requires GroupOk(g) && GroupListing(g, ps) && NewThresholdTask(id, g, decrypt, name, data, ps).Some?
    ensures People(NewThresholdTask(id, g, decrypt, name, data, ps).value.row.participants) == g.participants
  {
    hide NameValid, NewRow, GroupOk;
    GroupListingFacts(g, ps);
    NewRowListing(ThresholdKind(g.keyType), name, g.protocol, g.keyType, g.threshold, Some(id), Some(data), ps);
    PeopleOfGroup(g, NewThresholdTask(id, g, decrypt, name, data, ps).value.row.participants, ps);
  }

  lemma PeopleAre(rows: map<Bytes, ParticipantRow>, people: map<Bytes, Participant>)
    requires People(rows) == people
    ensures forall id :: id in rows <==> id in people
    ensures forall id | id in rows :: rows[id].device == people[id].device && rows[id].shares == people[id].shares
  {
    forall id ensures id in rows <==> id in people {
      assert id in People(rows) <==> id in rows;
    }
    forall id | id in rows ensures rows[id].device == people[id].device && rows[id].shares == people[id].shares {
      assert People(rows)[id] == people[id];
    }
  }

  lemma AskedStays(s: Sys, step: Step, tid: nat, row: TaskRow, row': TaskRow)
    requires SameRequest(row, row')
    ensures AskedGroup(s, step, tid, row) ==> AskedGroup(s, step, tid, row')
    ensures AskedTask(s, step, tid, row) ==> AskedTask(s, step, tid, row')
  {
    hide People;
    PeopleSame(row.participants, row'.participants);
  }

  lemma PeopleSame(rows: map<Bytes, ParticipantRow>, rows': map<Bytes, ParticipantRow>)
    requires People(rows') == People(rows)
    ensures rows'.Keys == rows.Keys
    ensures forall id | id in rows :: rows'[id].device == rows[id].device && rows'[id].shares == rows[id].shares
  {
    hide People;
    PeopleAre(rows, People(rows));
    PeopleAre(rows', People(rows));
  }

  /** In every run, every task was asked for at some step, and its row still says what
      that step asked for: name, data, group, threshold, protocol, key type, devices and
      their shares. */
  lemma TaskIsAsRequested(env: Env, b: seq<Sys>, steps: seq<Step>, n: nat, tid: nat) returns (k: nat)
    requires ValidEnv(env) && Behaviour(env, b, steps) && n < |b| && tid in b[n].rows
    ensures k < n && k < |steps|
    ensures if b[n].rows[tid].kind == GroupTask then AskedGroup(b[k], steps[k], tid, b[n].rows[tid])
            else AskedTask(b[k], steps[k], tid, b[n].rows[tid])
  {
    hide *;
    k := WasRequested(env, b, steps, n, tid);
    BeginsEmpty(env, b, steps);
    StepAt(env, b, steps, k + 1);
    RunsKeepInv(env, b, steps, k);
    NewTaskIsRequested(env, b[k], steps[k], tid);
    RequestedParts(b[k], steps[k]);
    if steps[k].RequestGroup? {
      NewGroupIsAsked(b[k], steps[k]);
    } else {
      NewTaskIsAsked(env, b[k], steps[k]);
    }
    AskedStays(b[k], steps[k], tid, b[k + 1].rows[tid], b[n].rows[tid]);
    AskedKind(b[k], steps[k], tid, b[n].rows[tid]);
  }

  lemma AskedKind(s: Sys, step: Step, tid: nat, row: TaskRow)
    ensures AskedGroup(s, step, tid, row) ==> row.kind == GroupTask
    ensures AskedTask(s, step, tid, row) ==> row.kind != GroupTask
  {
  }

  // --------------------------------------------------------------- the devices behind it

  lemma DevicesStep(env: Env, s: Sys, step: Step)
    requires Enabled(s, step)
    ensures Apply(env, s, step).devices
            == if step.Register? then s.devices[step.newcomer.id := step.newcomer] else s.devices
  {
    hide Put, Decide, UpdateTask, Acknowledge, RestartTask, Rebuild, NewGroupTask, NewThresholdTask, Draws, Applies,
         Counted, Listing, GroupListing, StaleOf, WithTimes, QueryAnswer, ReadMore, Snapshot, Complete, Touched;
  }

  lemma {:induction false} KnownIsRegistered(env: Env, b: seq<Sys>, steps: seq<Step>, n: nat, id: Bytes) returns (k: nat)
    requires Behaviour(env, b, steps) && n < |b| && id in b[n].devices
    ensures k < n && k < |steps| && steps[k] == Register(b[n].devices[id])
    decreases n
  {
    hide Behaviour, Apply, Enabled;
    BeginsEmpty(env, b, steps);
    assert n > 0;
    StepAt(env, b, steps, n);
    DevicesStep(env, b[n - 1], steps[n - 1]);
    if steps[n - 1].Register? && steps[n - 1].newcomer == b[n].devices[id] {
      k := n - 1;
    } else {
      k := KnownIsRegistered(env, b, steps, n - 1, id);
    }
  }

  /** In every run, the devices of a task are registered ones, with the certificates they
      were registered with, through rows of tasks and groups. */
  lemma DevicesAreRegistered(env: Env, b: seq<Sys>, steps: seq<Step>, n: nat, tid: nat, id: Bytes) returns (k: nat)
    requires ValidEnv(env) && Behaviour(env, b, steps) && n < |b| && tid in b[n].rows && id in b[n].rows[tid].participants
    ensures k < n && k < |steps| && steps[k] == Register(b[n].rows[tid].participants[id].device)
    decreases n
  {
    hide Behaviour, Establishes;
    var row := b[n].rows[tid];
    var r := TaskIsAsRequested(env, b, steps, n, tid);
    if row.kind == GroupTask {
      k := KnownIsRegistered(env, b, steps, r, id);
    } else {
      RunsKeepOrigins(env, b, steps, r);
      var gid := steps[r].gid;
      var origin :| origin in b[r].rows && Establishes(b[r].rows[origin], gid, b[r].groups[gid]);
      OriginPeople(b[r].rows[origin], gid, b[r].groups[gid]);
      k := DevicesAreRegistered(env, b, steps, r, origin, id);
    }
  }

  lemma OriginPeople(row: TaskRow, gid: Bytes, g: GroupRow)
    requires Establishes(row, gid, g)
    ensures forall id | id in g.participants ::
              id in row.participants && row.participants[id].device == g.participants[id].device
  {
    hide FullyActive, People;
    PeopleAre(row.participants, g.participants);
  }

  // --------------------------------------------------------------------- in memory

  ghost predicate InfoSays(row: TaskRow, info: TaskInfo) {
    && info.kind == row.kind && info.name == row.name && info.protocol == row.protocol && info.keyType == row.keyType
    && info.attempts == row.attempts && Listing(row.participants, info.participants)
  }

  ghost predicate ContextSays(groups: Groups, row: TaskRow, context: Context) {
    if row.kind == GroupTask then context == GroupContext(row.threshold)
    else
      && row.groupId.Some? && row.groupId.value in groups && row.data.Some?
      && context.ThresholdContext? && context.data == row.data.value && context.group.id == row.groupId.value
      && context.group.threshold == row.threshold && context.group.protocol == row.protocol
      && context.group.keyType == row.keyType && context.group.certificate == groups[row.groupId.value].certificate
  }

  /** Shares that must accept: all of a group request, the threshold of a group's task. */
  ghost function Needed(row: TaskRow): nat {
    if row.kind == GroupTask then MapSum(map id | id in row.participants :: row.participants[id].shares)
    else row.threshold
  }

  /** A task in memory is about what its row is about. */
  ghost predicate Remembers(groups: Groups, row: TaskRow, task: Task) {
    match task
    case VotingPhase(info, _, threshold, context) =>
      InfoSays(row, info) && threshold == Needed(row) && ContextSays(groups, row, context)
    case RunningPhase(run) =>
      && InfoSays(row, run.info)
      && (row.kind != GroupTask || run.round >= 1 || run.certificatesSent ==>
            && ContextSays(groups, row, run.context) && run.protocol == row.protocol == run.comm.protocol
            && run.comm.threshold == Needed(row)
            && run.operation == match row.kind
                                case GroupTask => Keygen
                                case PdfTask => Sign
                                case ChallengeTask => Sign
                                case DecryptTask => Decrypt)
    case DeclinedPhase(info, _, _) => InfoSays(row, info)
    case FinishedPhase(info, _, _) => InfoSays(row, info)
    case FailedPhase(info, _) => InfoSays(row, info)
  }

  lemma ContextFollows(groups: Groups, row: TaskRow)
    requires RowBase(groups, row)
    ensures ContextSays(groups, row, ContextOf(groups, row)) && AcceptThreshold(row) == Needed(row)
  {
    hide RowKeys, StoredAcks, MapSum;
  }

  lemma InfoFollows(row: TaskRow, info: TaskInfo)
    requires InfoMatches(row, info)
    ensures InfoSays(row, info)
  {
    hide Listing;
  }

  lemma VotedRemembers(groups: Groups, row: TaskRow, task: Task)
    requires task.VotingPhase? && RowBase(groups, row) && Voted(groups, row, task)
    ensures Remembers(groups, row, task)
  {
    hide RowBase, Listing, Cast, SameVotes, ContextOf, AcceptThreshold, Needed, InfoSays, ContextSays;
    ContextFollows(groups, row);
    InfoFollows(row, task.info);
  }

  lemma BareRemembers(groups: Groups, row: TaskRow, active: map<Bytes, nat>, task: Task)
    ensures Remembers(groups, row.(active := active), task) <==> Remembers(groups, row, task)
  {
    hide Listing;
  }

  lemma RunRemembers(groups: Groups, row: TaskRow, run: Run)
    requires RowBase(groups, row) && InfoMatches(row, run.info) && WellTyped(run) && ActiveMatches(row, run)
    requires run.context == ContextOf(groups, row)
    ensures Remembers(groups, row, RunningPhase(run))
  {
    hide RowBase, Listing, ContextOf, AcceptThreshold, Needed, InfoSays, ContextSays, WithinShares, ActiveMap, Sound;
    ContextFollows(groups, row);
    InfoFollows(row, run.info);
    assert run.info.kind == row.kind && run.info.protocol == row.protocol by { InfoKind(row, run.info); }
  }

  lemma InfoKind(row: TaskRow, info: TaskInfo)
    requires InfoMatches(row, info)
    ensures info.kind == row.kind && info.protocol == row.protocol
  {
    hide Listing;
  }

  lemma RunningRemembers(env: Env, groups: Groups, row: TaskRow, task: Task)
    requires TaskInv(env, groups, row, task) && task.RunningPhase?
    ensures Remembers(groups, row, task)
  {
    hide RowBase, Listing, ContextOf, AcceptedRow, ActiveMatches, DeviceClosed, CountsWithin, Tracked, UnstartedRow,
         Startable, RoundMatches, ContextSays, Needed, InfoMatches, InfoSays, RoundReceived;
    if !Tracked(row) {
      UnstartedParts(env, groups, row, task);
    }
    if Tracked(row) || !row.kind.GroupTask? {
      RunRemembers(groups, row, task.run);
    } else {
      InfoFollows(row, task.run.info);
    }
  }

  lemma EndedRemembers(env: Env, groups: Groups, row: TaskRow, task: Task)
    requires TaskInv(env, groups, row, task) && !task.VotingPhase? && !task.RunningPhase?
    ensures Remembers(groups, row, task)
  {
    hide RowBase, AcceptedRow, StoredAcks, CountsWithin, Tracked, UnstartedRow, Rejects, Accepts, InfoMatches,
         InfoSays, RowTotal, GroupOf, ResultBytes;
    InfoFollows(row, task.info);
  }

  lemma InvRemembers(env: Env, groups: Groups, row: TaskRow, task: Task)
    requires TaskInv(env, groups, row, task)
    ensures Remembers(groups, row, task)
  {
    hide TaskInv, RowBase, Voted, Remembers;
    if task.VotingPhase? {
      VotingIsBare(env, groups, row, task);
      VotedRemembers(groups, row.(active := map[]), task);
      BareRemembers(groups, row, map[], task);
    } else if task.RunningPhase? {
      RunningRemembers(env, groups, row, task);
    } else {
      EndedRemembers(env, groups, row, task);
    }
  }

  /** In every run, a task in memory has the name, kind, protocol, key type, attempt number
      and participants of its row; as long as it is open, also the data, the group, the
      number of shares that must accept, and the operation of its kind. */
  lemma MemoryFollowsRows(env: Env, b: seq<Sys>, steps: seq<Step>, n: nat, tid: nat)
    requires ValidEnv(env) && Behaviour(env, b, steps) && n < |b| && tid in b[n].cache
    ensures tid in b[n].rows && Remembers(b[n].groups, b[n].rows[tid], b[n].cache[tid])
  {
    hide *;
    RunsKeepInv(env, b, steps, n);
    InvParts(env, b[n], tid);
    InvRemembers(env, b[n].groups, b[n].rows[tid], b[n].cache[tid]);
  }

  // ------------------------------------------------------------------------ the answers

  /** A group request is admitted if and only if its name has 1 to 256 characters, none of
      them a control character, and its threshold is from 1 to the number of shares. */
  lemma GroupRequestAnswer(env: Env, s: Sys, step: Step)
    requires Enabled(s, step) && step.RequestGroup?
    ensures ReplyTo(env, s, step) == (if Admissible(step.name) && 1 <= step.threshold <= TotalShares(step.listing)
                                      then Done else Rejected)
    ensures ReplyTo(env, s, step) == Rejected ==> Apply(env, s, step) == s
  {
    hide Counted, NewRow, TotalShares;
  }

  ghost predicate Admissible(name: string) {
    1 <= |name| <= 256 && forall c | c in name :: 0x20 <= c as int < 0x7f || c as int >= 0xa0
  }

  /** A signing or decryption request is admitted if and only if it is made to a known
      group of that kind, under such a name. */
  lemma TaskRequestAnswer(env: Env, s: Sys, step: Step)
    requires Enabled(s, step) && step.RequestTask?
    ensures ReplyTo(env, s, step) == (if step.gid in s.groups && Admissible(step.name)
                                         && (step.decrypt <==> s.groups[step.gid].keyType == DecryptKey)
                                      then Done else Rejected)
    ensures ReplyTo(env, s, step) == Rejected ==> Apply(env, s, step) == s
  {
    hide GroupListing, NewRow, GroupOf;
  }
}
