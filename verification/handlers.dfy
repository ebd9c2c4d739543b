/** What one request does to one task: to its rows and to its cache entry. */
module Handlers {
  import opened Basics
  import opened Shares
  import opened Voting
  import opened Quorum
  import opened Communication
  import opened Rounds
  import opened Store

  datatype Slot = Slot(row: TaskRow, task: Task)

  /** `Rejected` is an error reply; `Crashed` a panic of the request's own thread;
      `Impossible` an arm the code marks as unreachable. */
  datatype Reply = Done | Rejected | Crashed | Impossible

  // ----------------------------------------------------------------- creation

  ghost function NewRow(kind: TaskType, name: string, protocol: ProtocolType, keyType: KeyType, threshold: nat,
                        groupId: Option<Bytes>, data: Option<Bytes>, ps: seq<Participant>): TaskRow
  {
    TaskRow(kind, name, protocol, keyType, threshold, groupId, data, 0, 0,
            if kind.GroupTask? then Some(false) else None, None,
            map id | id in IdSet(ps) :: ParticipantRow(DeviceOf(ps, id), SharesOf(ps, id), None, false), map[])
  }

  ghost function DeviceOf(ps: seq<Participant>, id: Bytes): Device
    requires id in IdSet(ps)
  {
    var p :| p in ps && p.device.id == id;
    p.device
  }

  /** A fresh group task; the database refuses names it does not take and a threshold
      outside 1 to the number of shares. */
  ghost function NewGroupTask(name: string, ps: seq<Participant>, threshold: nat, protocol: ProtocolType,
                              keyType: KeyType): Option<Slot>
  {
    if NameValid(name) && 1 <= threshold <= TotalShares(ps) then
      var info := TaskInfo(GroupTask, name, protocol, keyType, ps, 0);
      Some(Slot(NewRow(GroupTask, name, protocol, keyType, threshold, None, None, ps),
                VotingPhase(info, map[], TotalShares(ps), GroupContext(threshold))))
    else None
  }

  /** A fresh signing or decryption task of a group; `ps` are the group's participants
      as read from the database.  A group that decrypts is not asked to sign, nor the
      other way round. */
  ghost function NewThresholdTask(id: Bytes, g: GroupRow, decrypt: bool, name: string, data: Bytes,
                                  ps: seq<Participant>): Option<Slot>
  {
    if NameValid(name) && decrypt == g.keyType.DecryptKey? then
      var kind := ThresholdKind(g.keyType);
      var info := TaskInfo(kind, name, g.protocol, g.keyType, ps, 0);
      Some(Slot(NewRow(kind, name, g.protocol, g.keyType, g.threshold, Some(id), Some(data), ps),
                VotingPhase(info, map[], g.threshold, ThresholdContext(GroupOf(id, g), data))))
    else None
  }

  // ----------------------------------------------------------------- deciding

  /** The running task of an accepted one; `None` where construction errs. */
  function CreateRun(task: Task, active: map<nat, Device>): Option<Run>
    requires task.VotingPhase?
  {
    var info, context := task.info, task.context;
    var comm := NewComm(task.acceptThreshold, info.protocol, active);
    if comm.None? then None
    else match context
      case GroupContext(threshold) =>
        if SupportedPair(info.protocol, info.keyType)
            && CheckThreshold(info.protocol, threshold, TotalShares(info.participants))
        then Some(Run(info.(participants := SortById(info.participants)), context, info.protocol, Keygen,
                      comm.value, 0, false, None))
        else None
      case ThresholdContext(group, data) =>
        if info.kind.PdfTask? && !WithinPdfLimits(info.name, data) then None
        else if info.kind.DecryptTask? then Some(Run(info, context, ElGamal, Decrypt, comm.value, 0, false, None))
        else if group.protocol.ElGamal? then None
        else Some(Run(info, context, group.protocol, Sign, comm.value, 0, false, None))
  }

  /** How a vote is answered that accepts a task which is not constructed: the
      communicator, which asserts, is made before anything errs. */
  function Unmade(task: Task, active: map<nat, Device>): Reply
    requires task.VotingPhase?
  {
    if NewComm(task.acceptThreshold, task.info.protocol, active).None? then Crashed else Rejected
  }

  /** Rows of active shares are only inserted where there is none yet. */
  function StoreActive(row: TaskRow, counts: map<Bytes, nat>): TaskRow {
    row.(active := counts + row.active)
  }

  function StoreDecision(row: TaskRow, id: Bytes, accept: bool): TaskRow {
    if id in row.participants
    then row.(participants := row.participants[id := row.participants[id].(decision := Some(accept))])
    else row
  }

  ghost function StartRun(row: TaskRow, task: Task, run: Run, helper: Helper): (Slot, Reply) {
    var (run', u) := Initialize(run, helper);
    match u
    case CertificatesSent => (Slot(row.(certificatesSent := Some(true)), RunningPhase(run')), Done)
    case NextRound(r) => (Slot(row.(round := r), RunningPhase(run')), Done)
    case Failed(reason) => (Slot(row.(result := Some(Failure(reason))), FailedPhase(run'.info, reason)), Done)
    case _ => (Slot(row, task), Impossible)
  }

  /** What follows from the votes now recorded. */
  ghost function Settle(row: TaskRow, task: Task, chosen: seq<Device>, helper: Helper): (Slot, Reply)
    requires task.VotingPhase?
  {
    match Verdict(task.decisions, TotalShares(task.info.participants), task.acceptThreshold)
    case Undecided => (Slot(row, task), Done)
    case Declined(a, r) =>
      (Slot(row.(result := Some(Failure("Task declined"))), DeclinedPhase(task.info, a, r)), Done)
    case Accepted =>
      var row' := StoreActive(row, Tally(chosen));
      var active := ActiveMap(task.info.participants, Tally(chosen));
      var run := CreateRun(task, active);
      if run.None? then (Slot(row', task), Unmade(task, active)) else StartRun(row', task, run.value, helper)
  }

  ghost function WithVote(task: Task, id: Bytes, accept: bool): (t: Task)
    requires task.VotingPhase?
    ensures t.VotingPhase?
  {
    task.(decisions := Decided(task.info.participants, task.decisions, id, accept))
  }

  /** A vote.  `chosen` is the random draw made if the vote accepts the task. */
  ghost function Decide(slot: Slot, id: Bytes, accept: bool, chosen: seq<Device>, helper: Helper): (Slot, Reply) {
    if !slot.task.VotingPhase? || id !in IdSet(slot.task.info.participants) then (slot, Rejected)
    else Settle(StoreDecision(slot.row, id, accept), WithVote(slot.task, id, accept), chosen, helper)
  }

  /** The draw is one the server may make for this vote. */
  ghost predicate Draws(slot: Slot, id: Bytes, accept: bool, activations: map<Bytes, nat>, now: nat,
      chosen: seq<Device>) {
    slot.task.VotingPhase? && id in IdSet(slot.task.info.participants) ==>
      MayDraw(WithVote(slot.task, id, accept), activations, now, chosen)
  }

  ghost predicate MayDraw(task: Task, activations: map<Bytes, nat>, now: nat, chosen: seq<Device>)
    requires task.VotingPhase?
  {
    Accepts(task.decisions) >= task.acceptThreshold ==>
      Sample(Pool(task.info.participants, task.decisions, task.acceptThreshold, activations, now),
          task.acceptThreshold, chosen)
  }

  // ----------------------------------------------------------------- updating

  /** The group row, with the participants copied from the task's rows. */
  function NewGroup(group: Group, row: TaskRow): GroupRow {
    GroupRow(group.threshold, group.protocol, group.keyType, group.certificate, People(row.participants))
  }

  /** Storing a result.  An empty or already used group id makes the insertion of
      the group fail after the round has been stored. */
  ghost function Finish(groups: Groups, row: TaskRow, run: Run, round: nat, result: TaskResult): (Slot, Groups, Reply) {
    var row' := row.(round := round);
    var done := Slot(row'.(result := Some(Success(ResultBytes(result)))), FinishedPhase(run.info, result, {}));
    if !result.GroupEstablished? then (done, groups, Done)
    else if result.group.id == [] || result.group.id in groups then (Slot(row', RunningPhase(run)), groups, Rejected)
    else (done, groups[result.group.id := NewGroup(result.group, row)], Done)
  }

  /** The walk order given with an update is a walk of the inbox, and the task is
      one an update can be applied to. */
  ghost predicate Applies(task: Task, device: Bytes, msgs: seq<ClientMessage>, order: seq<nat>) {
    task.RunningPhase? ==>
      && DeviceClosed(task.run.comm)
      && Enumerates(order, AfterReceiving(task.run, device, msgs).comm.input.Keys)
  }

  /** A batch of protocol messages, submitted for a certain attempt. */
  ghost function UpdateTask(env: Env, groups: Groups, slot: Slot, device: Bytes, msgs: seq<ClientMessage>,
                            attempt: nat, order: seq<nat>, helper: Helper): (Slot, Groups, Reply)
    requires Applies(slot.task, device, msgs, order)
  {
    if !slot.task.RunningPhase? || attempt != slot.task.run.info.attempts then (slot, groups, Rejected)
    else
      var row := slot.row;
      var (run, u) := Update(env, slot.task.run, device, msgs, order, helper);
      match u
      case Listen => (Slot(row, RunningPhase(run)), groups, Done)
      case NextRound(r) => (Slot(row.(round := r), RunningPhase(run)), groups, Done)
      case Failed(reason) =>
        (Slot(row.(result := Some(Failure(reason))), FailedPhase(run.info, reason)), groups, Done)
      case Finished(r, result) => Finish(groups, row, run, r, result)
      case Refused => (Slot(row, RunningPhase(run)), groups, Rejected)
      case Panicked => (Slot(row, RunningPhase(run)), groups, Crashed)
      case CertificatesSent => (Slot(row, RunningPhase(run)), groups, Impossible)
  }

  // ------------------------------------------------------- acknowledging, restarting

  function StoreAck(row: TaskRow, id: Bytes): TaskRow {
    if id in row.participants
    then row.(participants := row.participants[id := row.participants[id].(acknowledged := true)])
    else row
  }

  /** Anyone may acknowledge in memory; only participants have a row for it. */
  ghost function Acknowledge(slot: Slot, id: Bytes): (Slot, Reply) {
    if !slot.task.FinishedPhase? then (slot, Rejected)
    else (Slot(StoreAck(slot.row, id), slot.task.(acknowledgements := slot.task.acknowledgements + {id})), Done)
  }

  /** The certificates are out, or a round is open. */
  predicate Began(row: TaskRow) {
    row.certificatesSent == Some(true) || row.round >= 1
  }

  /** The query behind the restart timer. */
  predicate RestartCandidate(row: TaskRow) {
    row.result.None? && Began(row)
  }

  ghost function RestartTask(slot: Slot, helper: Helper): (Slot, Reply) {
    if !slot.task.RunningPhase? then (slot, Rejected)
    else
      var row := slot.row.(attempts := slot.row.attempts + 1);
      var (run, u) := Restart(slot.task.run, helper);
      match u
      case NextRound(r) => (Slot(row.(round := r), RunningPhase(run)), Done)
      case Failed(reason) => (Slot(row.(result := Some(Failure(reason))), FailedPhase(run.info, reason)), Done)
      case CertificatesSent => (Slot(row.(certificatesSent := Some(true)), RunningPhase(run)), Done)
      case _ => (Slot(row, RunningPhase(run)), Impossible)
  }
}
