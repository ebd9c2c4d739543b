/** The server as an object: handlers that look a task up, change it in place and
    write rows one after the other.  Each is proved to be its step of the model, so
    that what holds of all runs holds of all sequences of calls. */
module Servers {
  import opened Basics
  import opened Shares
  import opened Voting
  import opened Quorum
  import opened Communication
  import opened Rounds
  import opened RunningTasks
  import opened Store
  import opened Handlers
  import opened Refinement
  import opened Preservation
  import opened Invariant
  import opened System
  import opened Passes
  import opened Requests

  // ------------------------------------------------------------- the database

  class Repository {
    var devices: map<Bytes, Device>
    var rows: map<nat, TaskRow>
    var groups: Groups

    constructor ()
      ensures devices == map[] && rows == map[] && groups == map[]
    {
      devices, rows, groups := map[], map[], map[];
    }

    method AddDevice(device: Device)
      modifies this`devices
      ensures devices == old(devices)[device.id := device]
    {
      devices := devices[device.id := device];
    }

    method SetTaskDecision(tid: nat, id: Bytes, accept: bool)
      requires tid in rows
      modifies this`rows
      ensures rows == old(rows)[tid := StoreDecision(old(rows)[tid], id, accept)]
    {
      rows := rows[tid := StoreDecision(rows[tid], id, accept)];
    }

    method SetTaskActiveShares(tid: nat, counts: map<Bytes, nat>)
      requires tid in rows
      modifies this`rows
      ensures rows == old(rows)[tid := StoreActive(old(rows)[tid], counts)]
    {
      rows := rows[tid := StoreActive(rows[tid], counts)];
    }

    method SetTaskRound(tid: nat, round: nat)
      requires tid in rows
      modifies this`rows
      ensures rows == old(rows)[tid := old(rows)[tid].(round := round)]
    {
      rows := rows[tid := rows[tid].(round := round)];
    }

    method SetCertificatesSent(tid: nat)
      requires tid in rows
      modifies this`rows
      ensures rows == old(rows)[tid := old(rows)[tid].(certificatesSent := Some(true))]
    {
      rows := rows[tid := rows[tid].(certificatesSent := Some(true))];
    }

    method SetTaskResult(tid: nat, outcome: Outcome)
      requires tid in rows
      modifies this`rows
      ensures rows == old(rows)[tid := old(rows)[tid].(result := Some(outcome))]
    {
      rows := rows[tid := rows[tid].(result := Some(outcome))];
    }

    method IncrementTaskAttemptCount(tid: nat)
      requires tid in rows
      modifies this`rows
      ensures rows == old(rows)[tid := old(rows)[tid].(attempts := old(rows)[tid].attempts + 1)]
    {
      rows := rows[tid := rows[tid].(attempts := rows[tid].attempts + 1)];
    }

    method SetTaskAcknowledgement(tid: nat, id: Bytes)
      requires tid in rows
      modifies this`rows
      ensures rows == old(rows)[tid := StoreAck(old(rows)[tid], id)]
    {
      rows := rows[tid := StoreAck(rows[tid], id)];
    }

    /** Inserts a group and copies the task's participants to it; refuses an empty
        or already used id. */
    method AddGroup(tid: nat, group: Group) returns (ok: bool)
      requires tid in rows
      modifies this`groups
      ensures ok <==> group.id != [] && group.id !in old(groups)
      ensures groups == if ok then old(groups)[group.id := NewGroup(group, rows[tid])] else old(groups)
    {
      if group.id == [] || group.id in groups { return false; }
      groups := groups[group.id := NewGroup(group, rows[tid])];
      return true;
    }

    /** Inserts a task and one row for each participant. */
    method CreateTask(tid: nat, kind: TaskType, name: string, protocol: ProtocolType, keyType: KeyType, threshold: nat,
                      groupId: Option<Bytes>, data: Option<Bytes>, ps: seq<Participant>)
      requires DistinctIds(ps)
      modifies this`rows
      ensures rows == old(rows)[tid := NewRow(kind, name, protocol, keyType, threshold, groupId, data, ps)]
    {
      var participants: map<Bytes, ParticipantRow> := map[];
      for k := 0 to |ps|
        invariant forall id :: id in participants <==> exists j :: 0 <= j < k && ps[j].device.id == id
        invariant forall j | 0 <= j < k :: participants[ps[j].device.id] == ParticipantRow(ps[j].device, ps[j].shares,
            None, false)
      {
        participants := participants[ps[k].device.id := ParticipantRow(ps[k].device, ps[k].shares, None, false)];
      }
      ghost var row := NewRow(kind, name, protocol, keyType, threshold, groupId, data, ps);
      NewRowIs(row, kind, name, protocol, keyType, threshold, groupId, data, ps, participants);
      rows := rows[tid := TaskRow(kind, name, protocol, keyType, threshold, groupId, data, 0, 0,
                                  if kind.GroupTask? then Some(false) else None, None, participants, map[])];
    }
  }

  lemma NewRowIs(row: TaskRow, kind: TaskType, name: string, protocol: ProtocolType, keyType: KeyType, threshold: nat,
                 groupId: Option<Bytes>, data: Option<Bytes>, ps: seq<Participant>, rows: map<Bytes, ParticipantRow>)
    requires DistinctIds(ps) && row == NewRow(kind, name, protocol, keyType, threshold, groupId, data, ps)
    requires forall id :: id in rows <==> exists j :: 0 <= j < |ps| && ps[j].device.id == id
    requires forall j | 0 <= j < |ps| :: rows[ps[j].device.id] == ParticipantRow(ps[j].device, ps[j].shares, None, false)
    ensures row.participants == rows
  {
    forall id ensures id in row.participants <==> id in rows {
      if id in rows {
        var j :| 0 <= j < |ps| && ps[j].device.id == id;
        assert ps[j] in ps;
      }
    }
    forall id | id in rows ensures row.participants[id] == rows[id] {
      var j :| 0 <= j < |ps| && ps[j].device.id == id;
      DeviceOfMember(ps, ps[j]);
      SharesOfMember(ps, ps[j]);
    }
  }

  // ---------------------------------------------------- rebuilding from the rows

  /** The running task made from its rows, unless the communicator's assertion fires
      or something is inconsistent. */
  method RebuildRunning(row: TaskRow, ps: seq<Participant>, context: Context)
    returns (r: Option<Run>, asserted: bool)
    requires DistinctIds(ps) && WithinShares(ps, row.active)
    ensures r == RebuildRun(row, ps, context)
    ensures asserted <==>
              NewComm(if row.kind.GroupTask? then TotalShares(ps) else row.threshold, row.protocol,
                      ActiveMap(ps, row.active)).None?
  {
    hide ActiveMap, WithinShares, DistinctIds;
    var threshold := if row.kind.GroupTask? then TotalShares(ps) else row.threshold;
    var active := HydrateActiveShares(ps, row.active);
    var comm := NewComm(threshold, row.protocol, active);
    if comm.None? { return None, true; }
    var p := if context.GroupContext? then row.protocol else context.group.protocol;
    var k := if context.GroupContext? then row.keyType else context.group.keyType;
    if !SupportedPair(p, k) || (row.kind.GroupTask? && row.certificatesSent.None?) { return None, false; }
    var operation := if row.kind.GroupTask? then Keygen else if k.DecryptKey? then Decrypt else Sign;
    return Some(Run(InfoOf(row, ps), context, p, operation, comm.value, row.round, row.certificatesSent == Some(true),
        None)), false;
  }

  method RebuildVoting(row: TaskRow, ps: seq<Participant>, acceptThreshold: nat, context: Context)
    returns (r: Option<Task>, asserted: bool)
    requires DistinctIds(ps) && WithinShares(ps, row.active)
    ensures r == RebuildOpen(row, ps, acceptThreshold, context)
    ensures asserted <==>
              && Accepts(StoredVotes(row.participants)) >= acceptThreshold
              && NewComm(if row.kind.GroupTask? then TotalShares(ps) else row.threshold, row.protocol,
                         ActiveMap(ps, row.active)).None?
  {
    hide ActiveMap, WithinShares, DistinctIds, RebuildRun, Accepts, Rejects, NewComm;
    var votes := StoredVotes(row.participants);
    var accepts, _ := AcceptsRejects(votes);
    if accepts < acceptThreshold {
      return Some(VotingPhase(InfoOf(row, ps), votes, acceptThreshold, context)), false;
    }
    var run;
    run, asserted := RebuildRunning(row, ps, context);
    r := if run.None? then None else Some(RunningPhase(run.value));
  }

  /** A task made from its rows: the phase is read off result and votes.  `asserted`
      tells whether an assertion fires on the way. */
  method FromModel(groups: Groups, row: TaskRow, ps: seq<Participant>) returns (r: Option<Task>, asserted: bool)
    requires DistinctIds(ps) && (row.result.None? ==> WithinShares(ps, row.active))
    ensures r == Rebuild(groups, row, ps) && (asserted <==> RebuildPanics(groups, row, ps))
  {
    hide WithinShares, DistinctIds, RebuildOpen, Accepts, Rejects, NewComm, ActiveMap;
    asserted := false;
    match row.result
    case Some(Success(data)) =>
      if !row.kind.GroupTask? {
        r := Some(FinishedPhase(InfoOf(row, ps), ResultOf(row.kind, data), StoredAcks(row.participants)));
      } else if data !in groups {
        r := None;
      } else {
        r := Some(FinishedPhase(InfoOf(row, ps), GroupEstablished(GroupOf(data, groups[data])),
                                StoredAcks(row.participants)));
      }
    case Some(Failure(error)) =>
      var accepts, rejects := AcceptsRejects(StoredVotes(row.participants));
      var rejectThreshold := if row.kind.GroupTask? then 1 else TotalShares(ps) - row.threshold + 1;
      r := Some(if rejects >= rejectThreshold then DeclinedPhase(InfoOf(row, ps), accepts, rejects)
                else FailedPhase(InfoOf(row, ps), error));
    case None =>
      if row.kind.GroupTask? {
        r, asserted := RebuildVoting(row, ps, TotalShares(ps), GroupContext(row.threshold));
      } else if row.groupId.None? || row.groupId.value !in groups || row.data.None? {
        r := None;
      } else {
        var g := groups[row.groupId.value];
        r, asserted := RebuildVoting(row, ps, g.threshold,
                                     ThresholdContext(GroupOf(row.groupId.value, g), row.data.value));
      }
  }

  // ------------------------------------------------------------------ the server

  /** What a voting task needs for a vote to be counted. */
  lemma VotingIsValid(env: Env, groups: Groups, row: TaskRow, task: Task)
    requires TaskInv(env, groups, row, task) && task.VotingPhase?
    ensures DistinctIds(task.info.participants) && Cast(task.info.participants, task.decisions)
    ensures task.acceptThreshold <= TotalShares(task.info.participants)
  {
    hide Sound, Launched, Cast, SameVotes, ContextOf, StoredAcks, RowKeys, Rejects, OfGroup, CountsWithin, Accepts,
         AcceptedRow;
    var bare := row.(active := map[]);
    assert InfoMatches(bare, task.info) && AcceptThreshold(bare) == task.acceptThreshold && RowBase(groups, bare);
    InfosAgree(bare, task.info, task.info.participants);
    ListingDistinct(bare.participants, task.info.participants);
  }

  lemma Overwrite<V>(m: map<nat, V>, k: nat, v: V, w: V)
    ensures m[k := v][k := w] == m[k := w]
  {
  }

  class Server {
    const repo: Repository
    var cache: map<nat, Task>
    var lastUpdates: map<nat, nat>
    var hydrations: map<nat, Hydration>
    var timer: Pass
    var activations: map<Bytes, nat>
    var now: nat

    function Value(): Sys
      reads this, repo
    {
      Sys(repo.devices, repo.rows, repo.groups, cache, lastUpdates, hydrations, timer, now)
    }

    constructor (now: nat)
      ensures fresh(repo) && Empty(Value()) && this.now == now
    {
      var r := new Repository();
      repo := r;
      cache, lastUpdates, hydrations, activations := map[], map[], map[], map[];
      timer := Pass(0, []);
      this.now := now;
    }

    /** Time passes. */
    method Advance(ghost env: Env, seconds: nat)
      modifies this`now
      ensures Value() == Apply(env, old(Value()), Wait(seconds))
    {
      now := now + seconds;
    }

    /** Notes that a device has just been heard from. */
    method ActivateDevice(id: Bytes)
      modifies this`activations
      ensures activations == old(activations)[id := now]
    {
      activations := activations[id := now];
    }

    /** Counts a vote and, if it decides the task, declines or starts it. */
    method DecideTask(ghost env: Env, tid: nat, id: Bytes, accept: bool, chosen: seq<Device>,
        helper: Helper) returns (reply: Reply)
      requires Inv(env, Value()) && Enabled(Value(), CastVote(tid, id, accept, activations, chosen, helper))
      modifies this, repo
      ensures var step := CastVote(tid, id, accept, old(activations), chosen, helper);
              Value() == Apply(env, old(Value()), step) && reply == ReplyTo(env, old(Value()), step)
    {
      hide Inv, TaskInv, RowInv, Cast, DistinctIds, TotalShares, IdSet, StoreDecision, Decided, MayDraw, Settle,
           Accepts, Rejects;
      var entry := cache[tid];
      assert repo.rows[tid := repo.rows[tid]] == repo.rows && cache[tid := entry] == cache;
      if !entry.VotingPhase? { return Rejected; }
      InvParts(env, Value(), tid);
      VotingIsValid(env, repo.groups, repo.rows[tid], entry);
      lastUpdates := lastUpdates[tid := now];
      var task := new VotingTask(entry.info.participants, entry.acceptThreshold, entry.decisions);
      var update := task.Decide(id, accept);
      if update == None { return Rejected; }
      repo.SetTaskDecision(tid, id, accept);
      cache := cache[tid := entry.(decisions := task.decisions)];
      assert cache[tid] == WithVote(entry, id, accept);
      reply := SettleTask(tid, update.value, chosen, helper);
      Overwrite(old(cache), tid, WithVote(entry, id, accept), cache[tid]);
      Overwrite(old(repo.rows), tid, StoreDecision(old(repo.rows)[tid], id, accept), repo.rows[tid]);
    }

    /** What follows from the votes now recorded. */
    method SettleTask(tid: nat, update: DecisionUpdate, chosen: seq<Device>, helper: Helper) returns (reply: Reply)
      requires tid in repo.rows && tid in cache && cache[tid].VotingPhase?
      requires var t := cache[tid]; DistinctIds(t.info.participants) && Cast(t.info.participants, t.decisions)
      requires var t := cache[tid]; update == Verdict(t.decisions, TotalShares(t.info.participants), t.acceptThreshold)
      requires MayDraw(cache[tid], activations, now, chosen)
      modifies this, repo
      ensures var (slot, r) := Settle(old(repo.rows)[tid], old(cache)[tid], chosen, helper);
              reply == r && Value() == Put(old(Value()), tid, slot, old(repo.groups), old(lastUpdates))
    {
      hide Cast, DistinctIds, TotalShares, Accepts, Rejects, Sample, Pool, Tally, ActiveMap, CreateRun, StartRun,
           StoreActive, Accepting;
      var task := cache[tid];
      assert repo.rows[tid := repo.rows[tid]] == repo.rows && cache[tid := task] == cache;
      match update
      case Undecided => return Done;
      case Declined(accepts, rejects) =>
        repo.SetTaskResult(tid, Failure("Task declined"));
        cache := cache[tid := DeclinedPhase(task.info, accepts, rejects)];
        return Done;
      case Accepted =>
        var counts, active := ChooseActiveShares(task.info.participants, task.decisions, task.acceptThreshold,
            activations, now, chosen);
        activations := (map device | device in Accepting(task.info.participants, task.decisions) :: now) + activations;
        repo.SetTaskActiveShares(tid, counts);
        var run := CreateRun(task, active);
        if run.None? { return Unmade(task, active); }
        reply := StartRunning(tid, run.value, helper);
        Overwrite(old(repo.rows), tid, StoreActive(old(repo.rows)[tid], counts), repo.rows[tid]);
    }

    /** Starts an accepted task and stores how. */
    method StartRunning(tid: nat, run: Run, helper: Helper) returns (reply: Reply)
      requires tid in repo.rows && tid in cache
      modifies this`cache, repo`rows
      ensures var (slot, r) := StartRun(old(repo.rows)[tid], old(cache)[tid], run, helper);
              reply == r && Value() == Put(old(Value()), tid, slot, old(repo.groups), old(lastUpdates))
    {
      hide Initialize;
      assert repo.rows[tid := repo.rows[tid]] == repo.rows && cache[tid := cache[tid]] == cache;
      var task := new RunningTask.FromValue(run);
      var u := task.InitializeTask(helper);
      match u
      case CertificatesSent =>
        repo.SetCertificatesSent(tid);
        cache := cache[tid := RunningPhase(task.Value())];
        return Done;
      case NextRound(round) =>
        repo.SetTaskRound(tid, round);
        cache := cache[tid := RunningPhase(task.Value())];
        return Done;
      case Failed(reason) =>
        repo.SetTaskResult(tid, Failure(reason));
        cache := cache[tid := FailedPhase(task.info, reason)];
        return Done;
      case _ => return Impossible;
    }

    /** Takes a batch of protocol messages, unless it was meant for another attempt. */
    method UpdateTask(env: Env, tid: nat, device: Bytes, msgs: seq<ClientMessage>, attempt: nat, order: seq<nat>,
                      helper: Helper)
      returns (reply: Reply)
      requires Enabled(Value(), Submit(tid, device, msgs, attempt, order, helper))
      modifies this, repo
      ensures var step := Submit(tid, device, msgs, attempt, order, helper);
              Value() == Apply(env, old(Value()), step) && reply == ReplyTo(env, old(Value()), step)
    {
      hide Handlers.UpdateTask, Applies;
      var entry := cache[tid];
      if entry.RunningPhase? { lastUpdates := lastUpdates[tid := now]; }
      reply := TakeBatch(env, tid, device, msgs, attempt, order, helper);
    }

    method TakeBatch(env: Env, tid: nat, device: Bytes, msgs: seq<ClientMessage>, attempt: nat, order: seq<nat>,
                     helper: Helper)
      returns (reply: Reply)
      requires tid in repo.rows && tid in cache && Applies(cache[tid], device, msgs, order)
      modifies this`cache, repo
      ensures var (slot, groups, r) :=
                Handlers.UpdateTask(env, old(repo.groups), SlotOf(old(Value()), tid), device, msgs, attempt, order,
                                    helper);
              reply == r && Value() == Put(old(Value()), tid, slot, groups, old(lastUpdates))
    {
      hide Update, Finish, DeviceClosed, Enumerates, AfterReceiving;
      var entry := cache[tid];
      assert repo.rows[tid := repo.rows[tid]] == repo.rows && cache[tid := entry] == cache;
      if !entry.RunningPhase? || attempt != entry.run.info.attempts { return Rejected; }
      var task := new RunningTask.FromValue(entry.run);
      var u := task.UpdateTask(env, device, msgs, order, helper);
      cache := cache[tid := RunningPhase(task.Value())];
      match u
      case Listen => return Done;
      case NextRound(round) =>
        repo.SetTaskRound(tid, round);
        return Done;
      case Failed(reason) =>
        repo.SetTaskResult(tid, Failure(reason));
        cache := cache[tid := FailedPhase(task.info, reason)];
        Overwrite(old(cache), tid, RunningPhase(task.Value()), cache[tid]);
        return Done;
      case Finished(round, result) =>
        reply := FinishTask(tid, task.Value(), round, result);
        Overwrite(old(cache), tid, RunningPhase(task.Value()), cache[tid]);
      case Refused => return Rejected;
      case Panicked => return Crashed;
      case CertificatesSent => return Impossible;
    }

    /** Stores the round, the new group if there is one, and the result. */
    method FinishTask(tid: nat, run: Run, round: nat, result: TaskResult) returns (reply: Reply)
      requires tid in repo.rows && tid in cache && cache[tid] == RunningPhase(run)
      modifies this`cache, repo
      ensures var (slot, groups, r) := Finish(old(repo.groups), old(repo.rows)[tid], run, round, result);
              reply == r && Value() == Put(old(Value()), tid, slot, groups, old(lastUpdates))
      ensures reply == Done <==>
                !(result.GroupEstablished? && (result.group.id == [] || result.group.id in old(repo.groups)))
      ensures tid in cache && tid in repo.rows && repo.rows[tid].round == round
      ensures reply == Done ==>
                && cache[tid] == FinishedPhase(run.info, result, {})
                && repo.rows[tid].result == Some(Success(match result
                                                         case GroupEstablished(group) => group.id
                                                         case Signed(data) => data
                                                         case SignedPdf(data) => data
                                                         case Decrypted(data) => data))
      ensures reply == Done && result.GroupEstablished? ==>
                var g := result.group;
                repo.groups == old(repo.groups)[g.id := GroupRow(g.threshold, g.protocol, g.keyType, g.certificate,
                                                                 People(old(repo.rows)[tid].participants))]
      ensures reply != Done || !result.GroupEstablished? ==> repo.groups == old(repo.groups)
      ensures reply != Done ==> cache == old(cache) && repo.rows[tid].result == old(repo.rows)[tid].result
    {
      ghost var row := repo.rows[tid];
      assert cache[tid := cache[tid]] == cache;
      repo.SetTaskRound(tid, round);
      if result.GroupEstablished? {
        var ok := repo.AddGroup(tid, result.group);
        if !ok { return Rejected; }
        assert NewGroup(result.group, row.(round := round)) == NewGroup(result.group, row);
      }
      repo.SetTaskResult(tid, Success(ResultBytes(result)));
      Overwrite(old(repo.rows), tid, row.(round := round), repo.rows[tid]);
      cache := cache[tid := FinishedPhase(run.info, result, {})];
      return Done;
    }

    method AcknowledgeTask(ghost env: Env, tid: nat, id: Bytes) returns (reply: Reply)
      requires Enabled(Value(), Confirm(tid, id))
      modifies this`cache, repo`rows
      ensures Value() == Apply(env, old(Value()), Confirm(tid, id))
          && reply == ReplyTo(env, old(Value()), Confirm(tid, id))
    {
      hide StoreAck;
      var entry := cache[tid];
      assert repo.rows[tid := repo.rows[tid]] == repo.rows && cache[tid := entry] == cache;
      if !entry.FinishedPhase? { return Rejected; }
      cache := cache[tid := entry.(acknowledgements := entry.acknowledgements + {id})];
      repo.SetTaskAcknowledgement(tid, id);
      return Done;
    }

    // ------------------------------------------------------------------- the timer

    /** Begins the next attempt of a running task. */
    method RestartOne(tid: nat, helper: Helper) returns (reply: Reply)
      requires tid in repo.rows && tid in cache && cache[tid].RunningPhase?
      modifies this`cache, this`lastUpdates, repo`rows
      ensures var (slot, r) := Handlers.RestartTask(SlotOf(old(Value()), tid), helper);
              reply == r && Value() == Put(old(Value()), tid, slot, old(repo.groups), old(lastUpdates)[tid := now])
    {
      hide Rounds.Restart;
      ghost var row := repo.rows[tid].(attempts := repo.rows[tid].attempts + 1);
      lastUpdates := lastUpdates[tid := now];
      repo.IncrementTaskAttemptCount(tid);
      var task := new RunningTask.FromValue(cache[tid].run);
      var u := task.RestartTask(helper);
      cache := cache[tid := RunningPhase(task.Value())];
      reply := StoreRestart(tid, u);
      Overwrite(old(repo.rows), tid, row, repo.rows[tid]);
      Overwrite(old(cache), tid, RunningPhase(task.Value()), cache[tid]);
    }

    /** Stores how a restart went. */
    method StoreRestart(tid: nat, u: RoundUpdate) returns (reply: Reply)
      requires tid in repo.rows && tid in cache && cache[tid].RunningPhase?
      modifies this`cache, repo`rows
      ensures reply == if u.NextRound? || u.Failed? || u.CertificatesSent? then Done else Impossible
      ensures var row, run := old(repo.rows)[tid], old(cache)[tid].run;
              && repo.rows == old(repo.rows)[tid :=
                   match u
                   case NextRound(round) => row.(round := round)
                   case Failed(reason) => row.(result := Some(Failure(reason)))
                   case CertificatesSent => row.(certificatesSent := Some(true))
                   case _ => row]
              && cache == old(cache)[tid := if u.Failed? then FailedPhase(run.info, u.reason) else RunningPhase(run)]
    {
      assert repo.rows[tid := repo.rows[tid]] == repo.rows && cache[tid := cache[tid]] == cache;
      match u {
        case NextRound(round) =>
          repo.SetTaskRound(tid, round);
        case Failed(reason) =>
          repo.SetTaskResult(tid, Failure(reason));
          cache := cache[tid := FailedPhase(cache[tid].run.info, reason)];
        case CertificatesSent =>
          repo.SetCertificatesSent(tid);
        case _ =>
          return Impossible;
      }
      return Done;
    }

    /** Notes the candidates without a last update and picks the stale ones. */
    method PickStale(clock: nat, ids: seq<nat>) returns (stale: seq<nat>)
      requires clock <= now
      modifies this`lastUpdates
      ensures lastUpdates == WithTimes(old(lastUpdates), ids, now) && stale == StaleOf(old(Value()), clock, ids)
    {
      ghost var before := Value();
      stale := [];
      assert WithTimes(lastUpdates, ids[..0], now) == lastUpdates;
      hide StaleOf, WithTimes, Stale;
      assert StaleOf(before, clock, ids[..0]) == [] by { NoneStale(before, clock); }
      for k := 0 to |ids|
        invariant lastUpdates == WithTimes(before.lastUpdates, ids[..k], now)
        invariant stale == StaleOf(before, clock, ids[..k])
      {
        var tid := ids[k];
        PickOne(before, clock, ids, k);
        var last := if tid in lastUpdates then lastUpdates[tid] else now;
        lastUpdates := lastUpdates[tid := last];
        if clock - last > 30 { stale := stale + [tid]; }
      }
      assert ids[..|ids|] == ids;
    }

    /** The query of a pass, whose time was read beforehand. */
    method BeginPass(ghost env: Env, clock: nat, ids: seq<nat>)
      requires Enabled(Value(), Query(clock, ids))
      modifies this`lastUpdates, this`timer
      ensures Value() == Apply(env, old(Value()), Query(clock, ids))
    {
      hide QueryAnswer, WithTimes, StaleOf;
      var stale := PickStale(clock, ids);
      timer := Pass(clock, stale);
    }

    /** Restarts the next task of the pass; one found not running ends it. */
    method RestartNextTask(ghost env: Env, helper: Helper) returns (reply: Reply)
      requires Enabled(Value(), RestartNext(helper))
      modifies this`cache, this`lastUpdates, this`timer, repo`rows
      ensures Value() == Apply(env, old(Value()), RestartNext(helper))
      ensures reply == ReplyTo(env, old(Value()), RestartNext(helper))
    {
      hide Handlers.RestartTask;
      var tid := timer.todo[0];
      if !cache[tid].RunningPhase? {
        timer := timer.(todo := []);
        return Rejected;
      }
      timer := timer.(todo := timer.todo[1..]);
      reply := RestartOne(tid, helper);
    }

    /** One round of the loop: the first task of the pass, which is still a candidate, is
        cached if need be and restarted. */
    method RestartFirst(env: Env, h: nat, ps: seq<Participant>, helper: Helper, ghost before: Sys, ghost start: seq<Step>)
      returns (reply: Reply, ghost trace: seq<Step>)
      requires ValidEnv(env) && Inv(env, Value()) && Leads(env, before, start, Value()) && h !in hydrations
      requires timer.todo != [] && timer.todo[0] in repo.rows && RestartCandidate(repo.rows[timer.todo[0]])
      requires Listing(repo.rows[timer.todo[0]].participants, ps)
      modifies this, repo
      ensures Leads(env, before, trace, Value()) && Inv(env, Value()) && reply == Done && hydrations == old(hydrations)
      ensures timer.todo == old(timer.todo)[1..] && repo.groups == old(repo.groups)
      ensures var tid := old(timer.todo)[0];
              && tid in repo.rows && repo.rows == old(repo.rows)[tid := repo.rows[tid]]
              && AttemptBegun(old(repo.rows)[tid], repo.rows[tid])
    {
      hide Inv, Apply, Enabled, ReplyTo, Listing, Rebuild, RestartCandidate, AttemptBegun, Leads;
      var tid := timer.todo[0];
      ghost var s := Value();
      CandidateIsRebuilt(env, s, tid, ps);
      ghost var filling := EnsureCached(env, h, tid, ps);
      ghost var filled := Value();
      LeadsJoin(env, before, start, s, filling, filled);
      QuietRestart(env, filled, helper);
      StepTaken(env, before, start + filling, filled, RestartNext(helper));
      reply := RestartNextTask(env, helper);
      trace := start + filling + [RestartNext(helper)];
    }

    /** A whole pass, filling the cache on the way: a sequence of steps that, undisturbed,
        begins the next attempt of exactly those candidates that have not been heard of
        for more than 30 seconds. */
    method RestartStaleTasks(env: Env, clock: nat, ids: seq<nat>, h: nat, listings: nat -> seq<Participant>,
                             helpers: nat -> Helper)
      returns (reply: Reply, ghost trace: seq<Step>)
      requires ValidEnv(env) && Inv(env, Value()) && h !in hydrations && Enabled(Value(), Query(clock, ids))
      requires forall tid | tid in repo.rows :: Listing(repo.rows[tid].participants, listings(tid))
      modifies this, repo
      ensures Leads(env, old(Value()), trace, Value()) && Inv(env, Value()) && reply == Done && timer.todo == []
      ensures repo.rows.Keys == old(repo.rows.Keys) && repo.groups == old(repo.groups)
      ensures forall tid | tid in repo.rows ::
                if tid in StaleOf(old(Value()), clock, ids) then AttemptBegun(old(repo.rows)[tid], repo.rows[tid])
                else repo.rows[tid] == old(repo.rows)[tid]
    {
      hide Inv, Apply, Enabled, Listing, RestartCandidate, AttemptBegun, Leads, StaleOf;
      ghost var before := Value();
      PassBegins(env, before, clock, ids);
      LeadsNowhere(env, before);
      StepTaken(env, before, [], before, Query(clock, ids));
      BeginPass(env, clock, ids);
      trace := [] + [Query(clock, ids)];
      reply := Done;
      ghost var stale := timer.todo;
      ghost var k := 0;
      while timer.todo != []
        invariant Leads(env, before, trace, Value()) && Inv(env, Value()) && reply == Done && h !in hydrations
        invariant k <= |stale| && timer.todo == stale[k..]
        invariant repo.rows.Keys == before.rows.Keys && repo.groups == before.groups
        invariant forall tid | tid in before.rows ::
                    if tid in stale[..k] then AttemptBegun(before.rows[tid], repo.rows[tid])
                    else repo.rows[tid] == before.rows[tid]
        decreases |timer.todo|
      {
        var tid := timer.todo[0];
        PassCandidate(before, clock, ids, k);
        reply, trace := RestartFirst(env, h, listings(tid), helpers(tid), before, trace);
        assert stale[..k + 1] == stale[..k] + [tid];
        k := k + 1;
      }
      assert stale[..k] == stale;
    }

    // ------------------------------------------------------------- filling the cache

    /** A request finds the task uncached. */
    method BeginHydration(ghost env: Env, h: nat, tid: nat)
      requires Enabled(Value(), Ask(h, tid))
      modifies this`hydrations
      ensures Value() == Apply(env, old(Value()), Ask(h, tid))
    {
      hydrations := hydrations[h := Hydration(tid, None, None, None, None, None)];
    }

    /** The rebuilt task is put in the cache if no one else has put it there. */
    method InstallHydrated(ghost env: Env, h: nat) returns (reply: Reply)
      requires Inv(env, Value()) && Enabled(Value(), Install(h))
      modifies this`cache, this`hydrations
      ensures Value() == Apply(env, old(Value()), Install(h)) && reply == ReplyTo(env, old(Value()), Install(h))
    {
      hide Inv, RowInv, Rebuild, RebuildPanics, Listing, HydrationOk, WithinShares, DistinctIds;
      var hydration := hydrations[h];
      hydrations := hydrations - {h};
      var row, ps := Snapshot(hydration), hydration.listing.value;
      HydrationsOk(env, old(Value()), h);
      SnapshotIsReadable(env, old(Value()), hydration);
      var task, asserted := FromModel(hydration.groups.value, row, ps);
      if asserted {
        PanicsMakeNothing(hydration.groups.value, row, ps);
        return Crashed;
      }
      if task.None? { return Rejected; }
      if hydration.tid !in cache { cache := cache[hydration.tid := task.value]; }
      return Done;
    }

    /** Fills the cache with a task unless it is there, reading its rows in five queries. */
    method EnsureCached(env: Env, h: nat, tid: nat, ps: seq<Participant>) returns (ghost trace: seq<Step>)
      requires ValidEnv(env) && Inv(env, Value()) && h !in hydrations
      requires tid in repo.rows && Listing(repo.rows[tid].participants, ps)
      modifies this`cache, this`hydrations
      ensures Leads(env, old(Value()), trace, Value()) && Inv(env, Value()) && hydrations == old(hydrations)
      ensures forall t | t in old(cache) :: t in cache && cache[t] == old(cache)[t]
      ensures tid in old(cache) || Rebuild(repo.groups, repo.rows[tid], ps).Some? <==> tid in cache
    {
      hide Inv, Apply, Enabled, ReplyTo, Listing, Rebuild, Leads, ReadUpTo;
      ghost var before := Value();
      trace := [];
      LeadsNowhere(env, before);
      if tid in cache { return; }
      AskShape(env, before, h, tid, repo.rows[tid], ps);
      StepTaken(env, before, trace, before, Ask(h, tid));
      BeginHydration(env, h, tid);
      trace := trace + [Ask(h, tid)];
      trace := ReadAll(env, h, tid, ps, before, trace);
      ghost var read := Value();
      InstallShape(env, read, h, tid, ps);
      StepTaken(env, before, trace, read, Install(h));
      var _ := InstallHydrated(env, h);
      trace := trace + [Install(h)];
      assert before.hydrations[h := read.hydrations[h]] - {h} == before.hydrations;
    }

    /** The five reads of a hydration, with nothing in between. */
    method ReadAll(env: Env, h: nat, tid: nat, ps: seq<Participant>, ghost before: Sys, ghost start: seq<Step>)
      returns (ghost trace: seq<Step>)
      requires ValidEnv(env) && Inv(env, Value()) && Leads(env, before, start, Value())
      requires tid in repo.rows && Listing(repo.rows[tid].participants, ps)
      requires h in hydrations && hydrations[h] == ReadUpTo(tid, repo.rows[tid], repo.groups, ps, 0)
      modifies this`hydrations
      ensures Leads(env, before, trace, Value()) && Inv(env, Value())
      ensures hydrations == old(hydrations)[h := ReadUpTo(tid, repo.rows[tid], repo.groups, ps, 5)]
    {
      hide Inv, Apply, Enabled, ReplyTo, Listing, Rebuild, Leads, ReadUpTo;
      trace := start;
      assert hydrations == hydrations[h := hydrations[h]];
      for k := 0 to 5
        invariant Leads(env, before, trace, Value()) && Inv(env, Value())
        invariant hydrations == old(hydrations)[h := ReadUpTo(tid, repo.rows[tid], repo.groups, ps, k)]
      {
        ghost var s := Value();
        ReadShape(env, s, h, tid, ps, k);
        StepTaken(env, before, trace, s, Read(h, ps));
        ReadNext(env, h, ps);
        trace := trace + [Read(h, ps)];
      }
    }

    /** Whatever was only in memory is gone, the times devices were last heard from as
        well. */
    method Restart(ghost env: Env)
      modifies this`cache, this`lastUpdates, this`hydrations, this`timer, this`activations
      ensures Value() == Apply(env, old(Value()), Reboot) && activations == map[]
    {
      cache, lastUpdates, hydrations, activations := map[], map[], map[], map[];
      timer := Pass(0, []);
    }

    /** The next of the five reads a hydration makes. */
    method ReadNext(ghost env: Env, h: nat, ps: seq<Participant>)
      requires Enabled(Value(), Read(h, ps))
      modifies this`hydrations
      ensures Value() == Apply(env, old(Value()), Read(h, ps))
    {
      hide ReadMore, Listing;
      var hydration := hydrations[h];
      hydrations := hydrations[h := ReadMore(hydration, repo.rows[hydration.tid], repo.groups, ps)];
    }

    // ----------------------------------------------------------------- new tasks

    method RegisterDevice(ghost env: Env, device: Device)
      requires Enabled(Value(), Register(device))
      modifies repo`devices
      ensures Value() == Apply(env, old(Value()), Register(device))
    {
      repo.AddDevice(device);
    }

    /** Looks up the devices of a request, in the order in which its counts are
        walked, and leaves out the unknown ones. */
    method Participants(requested: seq<Bytes>, order: seq<Bytes>) returns (ps: seq<Participant>)
      requires forall id | id in repo.devices :: repo.devices[id].id == id
      requires Walks(requested, order)
      ensures Counted(requested, repo.devices, ps)
    {
      var shares := CountShares(requested);
      ps := [];
      for k := 0 to |order|
        invariant forall p | p in ps :: p.device.id in order[..k] && p.device.id in repo.devices
        invariant forall p | p in ps ::
              p.device == repo.devices[p.device.id] && p.shares == multiset(requested)[p.device.id]
        invariant forall id | id in order[..k] && id in repo.devices :: id in IdSet(ps)
        invariant DistinctIds(ps)
      {
        assert order[..k + 1] == order[..k] + [order[k]];
        assert order[k] !in order[..k] && order[k] in requested;
        if order[k] in repo.devices {
          var p := Participant(repo.devices[order[k]], shares[order[k]]);
          IdSetSnoc(ps, p);
          ps := ps + [p];
        }
      }
      assert order[..|order|] == order;
    }

    /** Asks for a group with one share for each time a known device is named. */
    method AddGroupTask(ghost env: Env, tid: nat, name: string, requested: seq<Bytes>, order: seq<Bytes>, threshold: nat,
                        protocol: ProtocolType, keyType: KeyType) returns (ps: seq<Participant>, reply: Reply)
      requires Inv(env, Value()) && tid !in repo.rows && Walks(requested, order)
      modifies this`cache, repo`rows
      ensures var step := RequestGroup(tid, name, requested, ps, threshold, protocol, keyType);
              && Enabled(old(Value()), step)
              && Value() == Apply(env, old(Value()), step) && reply == ReplyTo(env, old(Value()), step)
    {
      assert forall id | id in repo.devices :: repo.devices[id].id == id by { DevicesById(env, Value()); }
      hide Inv, NewRow, NameValid, Counted, TotalShares, Apply, Enabled, ReplyTo;
      ps := Participants(requested, order);
      GroupRequest(env, Value(), RequestGroup(tid, name, requested, ps, threshold, protocol, keyType));
      if !NameValid(name) || !(1 <= threshold <= TotalShares(ps)) { return ps, Rejected; }
      repo.CreateTask(tid, GroupTask, name, protocol, keyType, threshold, None, None, ps);
      cache := cache[tid := VotingPhase(TaskInfo(GroupTask, name, protocol, keyType, ps, 0), map[], TotalShares(ps),
          GroupContext(threshold))];
      return ps, Done;
    }

    /** Asks a group to sign or, if `decrypt`, to decrypt something. */
    method AddThresholdTask(ghost env: Env, tid: nat, gid: Bytes, decrypt: bool, name: string, data: Bytes,
                            ps: seq<Participant>) returns (reply: Reply)
      requires Enabled(Value(), RequestTask(tid, gid, decrypt, name, data, ps))
      modifies this`cache, repo`rows
      ensures var step := RequestTask(tid, gid, decrypt, name, data, ps);
              Value() == Apply(env, old(Value()), step) && reply == ReplyTo(env, old(Value()), step)
      ensures reply == Done ==>
                && gid in repo.groups && tid in repo.rows && tid in cache
                && var g, row, task := repo.groups[gid], repo.rows[tid], cache[tid];
                   && row.name == name && row.data == Some(data) && row.groupId == Some(gid)
                   && row.threshold == g.threshold && row.protocol == g.protocol && row.keyType == g.keyType
                   && task.VotingPhase? && task.decisions == map[] && task.acceptThreshold == g.threshold
                   && task.context == ThresholdContext(GroupOf(gid, g), data)
                   && task.info.name == name && task.info.participants == ps
      ensures reply != Done ==> repo.rows == old(repo.rows) && cache == old(cache)
    {
      hide NewRow, NameValid;
      if gid !in repo.groups { return Rejected; }
      var g := repo.groups[gid];
      if decrypt != g.keyType.DecryptKey? || !NameValid(name) { return Rejected; }
      var kind := ThresholdKind(g.keyType);
      NewRowShape(kind, name, g.protocol, g.keyType, g.threshold, Some(gid), Some(data), ps);
      repo.CreateTask(tid, kind, name, g.protocol, g.keyType, g.threshold, Some(gid), Some(data), ps);
      cache := cache[tid := VotingPhase(TaskInfo(kind, name, g.protocol, g.keyType, ps, 0), map[], g.threshold,
                                        ThresholdContext(GroupOf(gid, g), data))];
      return Done;
    }
  }

  lemma GroupRequest(env: Env, s: Sys, step: Step)
    requires step.RequestGroup? && step.tid !in s.rows && Counted(step.requested, s.devices, step.listing)
    ensures var slot := NewGroupTask(step.name, step.listing, step.threshold, step.protocol, step.keyType);
            && Enabled(s, step)
            && Apply(env, s, step) == (if slot.Some? then Put(s, step.tid, slot.value, s.groups, s.lastUpdates) else s)
            && ReplyTo(env, s, step) == if slot.Some? then Done else Rejected
  {
    hide NewGroupTask, Counted;
  }

  /** `order` is a walk of the requested ids without repetition. */
  ghost predicate Walks(requested: seq<Bytes>, order: seq<Bytes>) {
    && (forall id :: id in order <==> id in requested)
    && forall i, j | 0 <= i < j < |order| :: order[i] != order[j]
  }

  lemma IdSetSnoc(ps: seq<Participant>, p: Participant)
    ensures IdSet(ps + [p]) == IdSet(ps) + {p.device.id}
  {
    forall id | id in IdSet(ps) + {p.device.id} ensures id in IdSet(ps + [p]) {
      if id in IdSet(ps) {
        var q :| q in ps && q.device.id == id;
        assert q in ps + [p];
      } else {
        assert p in ps + [p];
      }
    }
  }

  lemma NoneStale(s: Sys, clock: nat)
    ensures StaleOf(s, clock, []) == []
  {
  }

  /** Whatever a hydration has read can be put together. */
  lemma SnapshotIsReadable(env: Env, s: Sys, h: Hydration)
    requires HydrationOk(env, s, h) && Complete(h)
    ensures DistinctIds(h.listing.value) && WithinShares(h.listing.value, Snapshot(h).active)
  {
    hide Listing, CountsWithin, WithinShares, DistinctIds, Current;
    var row := s.rows[h.tid];
    ListingDistinct(row.participants, h.listing.value);
    CountsWithinShares(row.(active := h.active.value), h.listing.value);
  }
}
