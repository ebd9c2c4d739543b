/** Tasks in memory, their database rows, and the rebuilding of the one from the
    other.  Phases are not stored: they are derived from votes, result, round and
    active-share counts. */
module Store {
  import opened Basics
  import opened Shares
  import opened Voting
  import opened Communication
  import opened Rounds

  // -------------------------------------------------------------------- rows

  /** A task participant, joined with its device. */
  datatype ParticipantRow = ParticipantRow(device: Device, shares: nat, decision: Option<bool>, acknowledged: bool)

  datatype Outcome = Success(data: Bytes) | Failure(error: string)

  datatype TaskRow = TaskRow(
    kind: TaskType, name: string, protocol: ProtocolType, keyType: KeyType,
    threshold: nat, groupId: Option<Bytes>, data: Option<Bytes>,
    round: nat, attempts: nat, certificatesSent: Option<bool>, result: Option<Outcome>,
    participants: map<Bytes, ParticipantRow>, active: map<Bytes, nat>)

  datatype GroupRow = GroupRow(
    threshold: nat, protocol: ProtocolType, keyType: KeyType,
    certificate: Option<Bytes>, participants: map<Bytes, Participant>)

  type Groups = map<Bytes, GroupRow>

  /** A task as the cache holds it. */
  datatype Task =
    | VotingPhase(info: TaskInfo, decisions: map<Bytes, int>, acceptThreshold: nat, context: Context)
    | RunningPhase(run: Run)
    | DeclinedPhase(info: TaskInfo, accepts: nat, rejects: nat)
    | FinishedPhase(info: TaskInfo, result: TaskResult, acknowledgements: set<Bytes>)
    | FailedPhase(info: TaskInfo, reason: string)

  // ------------------------------------------------------------- admissibility

  predicate SupportedPair(p: ProtocolType, k: KeyType) {
    match (p, k)
    case (Gg18, PdfKey) => true
    case (Gg18, ChallengeKey) => true
    case (Frost, ChallengeKey) => true
    case (Musig2, ChallengeKey) => true
    case (ElGamal, DecryptKey) => true
    case _ => false
  }

  predicate CheckThreshold(p: ProtocolType, threshold: nat, size: nat) {
    match p
    case Gg18 | ElGamal | Frost => 2 <= threshold <= size
    case Musig2 => threshold >= 2 && threshold == size
  }

  /** The protocols and the keys they make, and the thresholds they run with. */
  lemma AdmittedIff(p: ProtocolType, k: KeyType, threshold: nat, size: nat)
    ensures SupportedPair(p, k) && CheckThreshold(p, threshold, size) <==>
              && (p, k) in {(Gg18, PdfKey), (Gg18, ChallengeKey), (Frost, ChallengeKey), (Musig2, ChallengeKey),
                            (ElGamal, DecryptKey)}
              && 2 <= threshold <= size && (p == Musig2 ==> threshold == size)
  {
  }

  /** The task type that runs with a key of the given type. */
  function ThresholdKind(k: KeyType): TaskType {
    match k
    case PdfKey => PdfTask
    case ChallengeKey => ChallengeTask
    case DecryptKey => DecryptTask
  }

  // ---------------------------------------------------------- names and PDF limits

  predicate IsControl(c: char) {
    c as int < 0x20 || 0x7f <= c as int < 0xa0
  }

  predicate Printable(name: string) {
    forall c | c in name :: !IsControl(c)
  }

  /** What the database takes as the name of a task: up to 256 characters. */
  predicate NameValid(name: string) {
    1 <= |name| <= 256 && Printable(name)
  }

  /** The bytes a string takes in UTF-8. */
  function Utf8Length(name: string): nat {
    if name == "" then 0 else
      var c := name[0] as int;
      (if c < 0x80 then 1 else if c < 0x800 then 2 else if c < 0x1_0000 then 3 else 4) + Utf8Length(name[1..])
  }

  /** A character in UTF-8, byte by byte, as in section 3 of RFC 3629. */
  function Utf8(ch: char): Bytes {
    var c := ch as int;
    if c < 0x80 then [c as Byte]
    else if c < 0x800 then [(0xc0 + c / 0x40) as Byte, Tail(c)]
    else if c < 0x1_0000 then [(0xe0 + c / 0x1000) as Byte, Tail(c / 0x40), Tail(c)]
    else [(0xf0 + c / 0x4_0000) as Byte, Tail(c / 0x1000), Tail(c / 0x40), Tail(c)]
  }

  /** A byte that goes on with a character: its next six bits. */
  function Tail(c: nat): Byte {
    (0x80 + c % 0x40) as Byte
  }

  function Encoded(name: string): Bytes {
    if name == "" then [] else Utf8(name[0]) + Encoded(name[1..])
  }

  lemma {:induction false} Utf8LengthIs(name: string)
    ensures Utf8Length(name) == |Encoded(name)|
  {
    if name != "" { Utf8LengthIs(name[1..]); }
  }

  /** What the construction of a PDF task takes: a name of up to 256 bytes, and data of
      up to 8 MiB. */
  predicate WithinPdfLimits(name: string, data: Bytes) {
    |data| <= 8 * 1024 * 1024 && Utf8Length(name) <= 256 && Printable(name)
  }

  // --------------------------------------------------------------- rebuilding

  /** `ps` lists the participant rows, in the order the database felt like. */
  ghost predicate Listing(rows: map<Bytes, ParticipantRow>, ps: seq<Participant>) {
    && DistinctIds(ps)
    && IdSet(ps) == rows.Keys
    && forall p | p in ps :: p.device.id in rows && rows[p.device.id].device == p.device
        && rows[p.device.id].shares == p.shares
  }

  function RowVote(r: ParticipantRow): int {
    match r.decision
    case Some(true) => ToI8(r.shares)
    case Some(false) => ToI8(0 - r.shares)
    case None => 0
  }

  function StoredVotes(rows: map<Bytes, ParticipantRow>): map<Bytes, int> {
    map id | id in rows :: RowVote(rows[id])
  }

  function StoredAcks(rows: map<Bytes, ParticipantRow>): set<Bytes> {
    set id | id in rows && rows[id].acknowledged
  }

  function People(rows: map<Bytes, ParticipantRow>): map<Bytes, Participant> {
    map id | id in rows :: Participant(rows[id].device, rows[id].shares)
  }

  function GroupOf(id: Bytes, g: GroupRow): Group {
    Group(id, g.threshold, g.protocol, g.keyType, g.certificate, map d | d in g.participants :: g.participants[d].shares)
  }

  function ResultOf(kind: TaskType, data: Bytes): TaskResult
    requires !kind.GroupTask?
  {
    match kind
    case PdfTask => SignedPdf(data)
    case ChallengeTask => Signed(data)
    case DecryptTask => Decrypted(data)
  }

  function ResultBytes(r: TaskResult): Bytes {
    match r
    case GroupEstablished(group) => group.id
    case Signed(data) => data
    case SignedPdf(data) => data
    case Decrypted(data) => data
  }

  function InfoOf(row: TaskRow, ps: seq<Participant>): TaskInfo {
    TaskInfo(row.kind, row.name, row.protocol, row.keyType, ps, row.attempts)
  }

  /** A communicator is only made for at least two shares and a threshold they
      reach; otherwise an assertion fires. */
  function NewComm(threshold: nat, protocol: ProtocolType, active: map<nat, Device>): Option<Comm> {
    if |active| > 1 && threshold <= |active|
    then Some(Comm(threshold, protocol, active, map[], map[]))
    else None
  }

  /** A running task with empty buffers, from rows. */
  ghost function RebuildRun(row: TaskRow, ps: seq<Participant>, context: Context): Option<Run> {
    var threshold := if row.kind.GroupTask? then TotalShares(ps) else row.threshold;
    var p := if context.GroupContext? then row.protocol else context.group.protocol;
    var k := if context.GroupContext? then row.keyType else context.group.keyType;
    var comm := NewComm(threshold, row.protocol, ActiveMap(ps, row.active));
    if comm.None? || !SupportedPair(p, k) || (row.kind.GroupTask? && row.certificatesSent.None?) then None
    else
      var operation := if row.kind.GroupTask? then Keygen else if k.DecryptKey? then Decrypt else Sign;
      Some(Run(InfoOf(row, ps), context, p, operation, comm.value, row.round,
               row.certificatesSent == Some(true), None))
  }

  ghost function RebuildFailed(row: TaskRow, ps: seq<Participant>, error: string, rejectThreshold: int): Task {
    var votes := StoredVotes(row.participants);
    if Rejects(votes) >= rejectThreshold
    then DeclinedPhase(InfoOf(row, ps), Accepts(votes), Rejects(votes))
    else FailedPhase(InfoOf(row, ps), error)
  }

  ghost function RebuildOpen(row: TaskRow, ps: seq<Participant>, acceptThreshold: nat, context: Context): Option<Task> {
    var votes := StoredVotes(row.participants);
    if Accepts(votes) < acceptThreshold
    then Some(VotingPhase(InfoOf(row, ps), votes, acceptThreshold, context))
    else
      var run := RebuildRun(row, ps, context);
      if run.None? then None else Some(RunningPhase(run.value))
  }

  /** The task a fresh cache entry is made of; `None` where rebuilding errs. */
  ghost function Rebuild(groups: Groups, row: TaskRow, ps: seq<Participant>): Option<Task> {
    if row.kind.GroupTask? then
      match row.result
      case Some(Success(id)) =>
        if id in groups
        then Some(FinishedPhase(InfoOf(row, ps), GroupEstablished(GroupOf(id, groups[id])), StoredAcks(row.participants)))
        else None
      case Some(Failure(error)) => Some(RebuildFailed(row, ps, error, 1))
      case None => RebuildOpen(row, ps, TotalShares(ps), GroupContext(row.threshold))
    else
      match row.result
      case Some(Success(data)) =>
        Some(FinishedPhase(InfoOf(row, ps), ResultOf(row.kind, data), StoredAcks(row.participants)))
      case Some(Failure(error)) => Some(RebuildFailed(row, ps, error, TotalShares(ps) - row.threshold + 1))
      case None =>
        if row.groupId.None? || row.groupId.value !in groups || row.data.None? then None
        else
          var g := groups[row.groupId.value];
          RebuildOpen(row, ps, g.threshold, ThresholdContext(GroupOf(row.groupId.value, g), row.data.value))
  }

  /** Rebuilding gets as far as the communicator, and its assertion fires. */
  ghost predicate RebuildPanics(groups: Groups, row: TaskRow, ps: seq<Participant>) {
    && row.result.None?
    && (row.kind.GroupTask? || (row.groupId.Some? && row.groupId.value in groups && row.data.Some?))
    && Accepts(StoredVotes(row.participants))
       >= (if row.kind.GroupTask? then TotalShares(ps) else groups[row.groupId.value].threshold)
    && NewComm(if row.kind.GroupTask? then TotalShares(ps) else row.threshold, row.protocol,
               ActiveMap(ps, row.active)).None?
  }

  lemma PanicsMakeNothing(groups: Groups, row: TaskRow, ps: seq<Participant>)
    requires RebuildPanics(groups, row, ps)
    ensures Rebuild(groups, row, ps).None?
  {
    hide Accepts, Rejects, StoredVotes, TotalShares, ActiveMap, NewComm;
  }

  // --------------------------------------------------- what both must agree on

  datatype InfoView = InfoView(
    kind: TaskType, name: string, protocol: ProtocolType, keyType: KeyType,
    participants: multiset<Participant>, attempts: nat)

  /** A task up to list order, message buffers and the PDF hash. */
  datatype View =
    | VotingView(info: InfoView, accepts: nat, rejects: nat, accepted: set<Bytes>, threshold: nat, context: Context)
    | RunningView(info: InfoView, context: Context, protocol: ProtocolType, operation: Operation,
                  round: nat, certificatesSent: bool, threshold: nat, active: map<nat, Device>)
    | DeclinedView(info: InfoView, accepts: nat, rejects: nat)
    | FinishedView(info: InfoView, result: TaskResult, acknowledgements: set<Bytes>)
    | FailedView(info: InfoView, reason: string)

  function ViewInfo(info: TaskInfo): InfoView {
    InfoView(info.kind, info.name, info.protocol, info.keyType, multiset(info.participants), info.attempts)
  }

  /** Acknowledgements count for participants only: the database has no row for
      anyone else's. */
  ghost function ViewOf(task: Task): View {
    match task
    case VotingPhase(info, votes, t, context) =>
      VotingView(ViewInfo(info), Accepts(votes), Rejects(votes),
                 (set id | id in votes && DeviceAccepted(votes, id)), t, context)
    case RunningPhase(run) =>
      RunningView(ViewInfo(run.info), run.context, run.protocol, run.operation, run.round, run.certificatesSent,
                  run.comm.threshold, run.comm.active)
    case DeclinedPhase(info, a, r) => DeclinedView(ViewInfo(info), a, r)
    case FinishedPhase(info, result, acks) => FinishedView(ViewInfo(info), result, acks * IdSet(info.participants))
    case FailedPhase(info, reason) => FailedView(ViewInfo(info), reason)
  }

  /** A final step that did not go through leaves the round counter one ahead of
      the stored round; a restart brings them together again. */
  ghost predicate Stuck(env: Env, task: Task) {
    task.RunningPhase? && task.run.round == LastRound(env, task.run) + 1
  }

  /** Rebuilding from this listing of the participants gives the given task. */
  ghost predicate AgreeOn(env: Env, groups: Groups, row: TaskRow, task: Task, ps: seq<Participant>) {
    && Rebuild(groups, row, ps).Some?
    && var view, rebuilt := ViewOf(task), ViewOf(Rebuild(groups, row, ps).value);
       view == rebuilt || (Stuck(env, task) && view.(round := LastRound(env, task.run)) == rebuilt)
  }

  /** Rebuilding gives the task the cache holds, whatever order the participants
      are read in. */
  ghost predicate Agree(env: Env, groups: Groups, row: TaskRow, task: Task) {
    forall ps | Listing(row.participants, ps) :: AgreeOn(env, groups, row, task, ps)
  }
}
