/** The round machine of a running task: certificates (group tasks only), then
    rounds 1 to the protocol's last round, then the result; with restarts. */
module Rounds {
  import opened Basics
  import opened Shares
  import opened Communication

  datatype KeyType = PdfKey | ChallengeKey | DecryptKey

  datatype TaskType = GroupTask | PdfTask | ChallengeTask | DecryptTask

  datatype Operation = Keygen | Sign | Decrypt

  datatype Group = Group(
    id: Bytes, threshold: nat, protocol: ProtocolType, keyType: KeyType,
    certificate: Option<Bytes>, shares: map<Bytes, nat>)

  datatype TaskInfo = TaskInfo(
    kind: TaskType, name: string, protocol: ProtocolType, keyType: KeyType,
    participants: seq<Participant>, attempts: nat)

  /** What a task needs to run: the threshold of the group to establish, or the
      group to run in and the data to work on. */
  datatype Context = GroupContext(threshold: nat) | ThresholdContext(group: Group, data: Bytes)

  datatype TaskResult =
    | GroupEstablished(group: Group)
    | Signed(data: Bytes)
    | SignedPdf(data: Bytes)
    | Decrypted(data: Bytes)

  /** The protocol library: round counts and signature verification. */
  datatype Env = Env(lastRound: (ProtocolType, Operation) -> nat, verify: Verifier)

  ghost predicate ValidEnv(env: Env) {
    forall p, o :: env.lastRound(p, o) >= 1
  }

  /** What the external helper process answers, where one is used: the hash of a PDF at
      the start, which is empty for data that is no PDF; a certificate or a signed PDF at
      the end; `None` where it could not be used. */
  datatype Helper = Helper(start: Option<Bytes>, finish: Option<Bytes>)

  datatype Run = Run(
    info: TaskInfo,
    context: Context,
    protocol: ProtocolType,
    operation: Operation,
    comm: Comm,
    round: nat,
    certificatesSent: bool,
    preprocessed: Option<Bytes>)

  /** The outcome of a step; `Refused` is an error reply, `Panicked` an assertion
      that fired. */
  datatype RoundUpdate =
    | Listen
    | CertificatesSent
    | NextRound(round: nat)
    | Finished(round: nat, result: TaskResult)
    | Failed(reason: string)
    | Refused
    | Panicked

  function LastRound(env: Env, run: Run): nat {
    env.lastRound(run.protocol, run.operation)
  }

  // --------------------------------------------------------------- the steps

  /** The message that opens round 1 for index `i`. */
  ghost function InitMessage(run: Run, i: nat): ServerMessage {
    match run.context
    case GroupContext(threshold) =>
      var parties := TotalShares(run.info.participants);
      ProtocolGroupInit(run.protocol, i, parties, if run.protocol.Musig2? then parties else threshold)
    case ThresholdContext(_, data) =>
      ProtocolInit(run.protocol, Ascend(Indices(run.comm)), i,
                   if run.preprocessed.Some? then run.preprocessed.value else data)
  }

  ghost function Started(run: Run): Run {
    run.(round := 1, comm := SendAll(run.comm, (i: nat) => InitMessage(run, i)))
  }

  /** The helper process has made a hash of the PDF. */
  predicate HashMade(helper: Helper) {
    helper.start.Some? && helper.start.value != []
  }

  function StartFailure(helper: Helper): string {
    if helper.start.None? then "Task failed (server error)" else "Task failed (invalid PDF)"
  }

  ghost function StartTask(run: Run, helper: Helper): (Run, RoundUpdate) {
    if !run.info.kind.PdfTask? then (Started(run), NextRound(1))
    else if !HashMade(helper) then (run, Failed(StartFailure(helper)))
    else (Started(run.(preprocessed := helper.start)), NextRound(1))
  }

  ghost function Certificates(ps: seq<Participant>, c: Comm): map<nat, Bytes> {
    if ps == [] then map[] else
      Certificates(ps[1..], c) + map i | i in IndicesOf(c, ps[0].device.id) :: ps[0].device.certificate
  }

  ghost function SendCertificates(run: Run): Run {
    run.(certificatesSent := true,
         comm := SendAll(run.comm, (_: nat) => Relayed(run.protocol, map[], Certificates(run.info.participants,
             run.comm))))
  }

  ghost function Advanced(run: Run): Run {
    run.(round := run.round + 1, comm := Relay(run.comm))
  }

  function FailureReason(kind: TaskType): string {
    match kind
    case GroupTask => "Task failed (group key not output)"
    case PdfTask | ChallengeTask => "Task failed (signature not output)"
    case DecryptTask => "Task failed (data not output)"
  }

  /** The agreed result has a length on which an assertion fires: the public key a
      certificate is made for has 65 bytes, the signature put in a PDF has 64. */
  predicate Unfit(run: Run, m: Bytes) {
    match run.info.kind
    case GroupTask => run.protocol.Gg18? && |m| != 65
    case PdfTask => |m| != 64
    case _ => false
  }

  /** The group key becomes a group; a signature or plaintext the result.  The
      round counter has moved on by then, whatever happens afterwards. */
  ghost function Finalize(env: Env, run: Run, order: seq<nat>, helper: Helper): (Run, RoundUpdate)
    requires run.comm.input.Keys <= Indices(run.comm) && Enumerates(order, run.comm.input.Keys)
  {
    var after := run.(round := run.round + 1);
    var cleared := after.(comm := run.comm.(input := map[]));
    match FinalFrom(env.verify, run.comm, order, None)
    case Panic => (after, Panicked)
    case NoMessage => (after, Failed(FailureReason(run.info.kind)))
    case Message(m) =>
      match run.info.kind
      case GroupTask =>
        if Unfit(run, m) then (after, Panicked)
        else if run.protocol.Gg18? && helper.finish.None? then (after, Refused)
        else
          var threshold := if run.context.GroupContext? then run.context.threshold else 0;
          var group := Group(m, threshold, run.protocol, run.info.keyType,
                             if run.protocol.Gg18? then helper.finish else None, Weights(run.info.participants));
          (cleared, Finished(run.round + 1, GroupEstablished(group)))
      case PdfTask =>
        if Unfit(run, m) || helper.finish.None? then (cleared, Panicked)
        else (cleared, Finished(run.round + 1, SignedPdf(helper.finish.value)))
      case ChallengeTask => (cleared, Finished(run.round + 1, Signed(m)))
      case DecryptTask => (cleared, Finished(run.round + 1, Decrypted(m)))
  }

  ghost function NextStep(env: Env, run: Run, order: seq<nat>, helper: Helper): (Run, RoundUpdate)
    requires run.comm.input.Keys <= Indices(run.comm) && Enumerates(order, run.comm.input.Keys)
  {
    if run.info.kind.GroupTask? && !run.certificatesSent then (SendCertificates(run), CertificatesSent)
    else if run.round == 0 then StartTask(run, helper)
    else if run.round < LastRound(env, run) then (Advanced(run), NextRound(run.round + 1))
    else if run.round == LastRound(env, run) then Finalize(env, run, order, helper)
    else (run, Panicked)
  }

  /** The inbox after the batch, if it is one the communicator stores. */
  ghost function AfterReceiving(run: Run, device: Bytes, msgs: seq<ClientMessage>): Run {
    if Receives(run.comm, device, msgs).Stored? then run.(comm := Gathered(run.comm, device, msgs)) else run
  }

  /** A batch from a device.  A batch of the wrong size is dropped without an
      error: the communicator's answer is not looked at. */
  ghost function Update(env: Env, run: Run, device: Bytes, msgs: seq<ClientMessage>, order: seq<nat>, helper: Helper)
    : (Run, RoundUpdate)
    requires DeviceClosed(run.comm) && Enumerates(order, AfterReceiving(run, device, msgs).comm.input.Keys)
  {
    if !WaitingFor(run.comm, device) then (run, Refused)
    else if run.info.kind.GroupTask? && !run.certificatesSent then (run, Panicked)
    else if Receives(run.comm, device, msgs).Misshapen? then (run, Panicked)
    else
      var run' := AfterReceiving(run, device, msgs);
      assert run'.comm.input.Keys <= Indices(run'.comm) by { ReceivingKeepsClosed(run, device, msgs); }
      if RoundReceived(run'.comm) && run.round <= LastRound(env, run) then NextStep(env, run', order, helper)
      else (run', Listen)
  }

  ghost function Initialize(run: Run, helper: Helper): (Run, RoundUpdate) {
    if run.info.kind.GroupTask? then (SendCertificates(run), CertificatesSent) else StartTask(run, helper)
  }

  ghost function Restart(run: Run, helper: Helper): (Run, RoundUpdate) {
    StartTask(run.(info := run.info.(attempts := run.info.attempts + 1)), helper)
  }

  /** What a device is given to do. */
  ghost function GetWork(run: Run, device: Bytes): seq<Option<ServerMessage>> {
    if WaitingFor(run.comm, device) then MessagesFor(run.comm, device) else []
  }

  lemma ReceivingKeepsClosed(run: Run, device: Bytes, msgs: seq<ClientMessage>)
    requires DeviceClosed(run.comm)
    ensures DeviceClosed(AfterReceiving(run, device, msgs).comm)
  {
    if Receives(run.comm, device, msgs).Stored? {
      GatherKeepsClosed(run.comm, device, msgs);
    }
  }

  // --------------------------------------------------------- the invariant

  predicate WellTyped(run: Run) {
    && (run.info.kind.GroupTask? <==> run.context.GroupContext?)
    && run.operation == OperationOf(run.info.kind)
    && run.comm.protocol == run.info.protocol == run.protocol
  }

  function OperationOf(kind: TaskType): Operation {
    match kind
    case GroupTask => Keygen
    case PdfTask | ChallengeTask => Sign
    case DecryptTask => Decrypt
  }

  /** What every running task satisfies between two requests.  The round counter
      stands past the last round only after a final step that did not go through;
      up to then some device is being waited for. */
  ghost predicate RunOk(env: Env, run: Run) {
    && WellTyped(run)
    && DeviceClosed(run.comm)
    && run.comm.active != map[]
    && run.round <= LastRound(env, run) + 1
    && (run.round <= LastRound(env, run) ==> !RoundReceived(run.comm))
    && (run.info.kind.GroupTask? ==> run.certificatesSent)
  }

  lemma EmptyInboxIsClosed(c: Comm)
    requires c.input == map[]
    ensures DeviceClosed(c)
    ensures c.active != map[] ==> !RoundReceived(c)
  {
    assert c.active != map[] ==> |c.active| > 0;
  }

  /** What never changes in a running task. */
  predicate SameTask(a: Run, b: Run) {
    && b.info == a.info.(attempts := b.info.attempts)
    && b.context == a.context && b.protocol == a.protocol && b.operation == a.operation
    && b.comm.threshold == a.comm.threshold && b.comm.protocol == a.comm.protocol && b.comm.active == a.comm.active
  }

  /** Starting never listens and never finishes; it opens round 1 with an empty
      inbox, or fails. */
  lemma StartTaskOk(env: Env, run: Run, helper: Helper)
    requires ValidEnv(env) && WellTyped(run) && run.comm.active != map[]
    requires run.info.kind.GroupTask? ==> run.certificatesSent
    ensures var (run', u) := StartTask(run, helper);
            && SameTask(run, run') && run'.info == run.info && run'.certificatesSent == run.certificatesSent
            && (u == NextRound(1) || u.Failed?)
            && (u == NextRound(1) ==> RunOk(env, run') && run'.round == 1 && run'.comm.input == map[])
            && (u.Failed? ==> run.info.kind.PdfTask?)
  {
    hide DeviceClosed;
    var (run', u) := StartTask(run, helper);
    if u == NextRound(1) {
      EmptyInboxIsClosed(run'.comm);
    }
  }

  lemma InitializeOk(env: Env, run: Run, helper: Helper)
    requires ValidEnv(env) && WellTyped(run) && run.comm.active != map[] && run.round == 0
    ensures var (run', u) := Initialize(run, helper);
            && SameTask(run, run') && run'.info == run.info
            && (if run.info.kind.GroupTask? then u == CertificatesSent else u == NextRound(1) || u.Failed?)
            && (!u.Failed? ==> RunOk(env, run') && run'.comm.input == map[])
            && (u == CertificatesSent ==> run'.round == 0)
            && (u == NextRound(1) ==> run'.round == 1)
            && (u.Failed? ==> run.info.kind.PdfTask?)
  {
    hide DeviceClosed;
    if run.info.kind.GroupTask? {
      EmptyInboxIsClosed(SendCertificates(run).comm);
    } else {
      StartTaskOk(env, run, helper);
    }
  }

  lemma RestartOk(env: Env, run: Run, helper: Helper)
    requires ValidEnv(env) && RunOk(env, run)
    ensures var (run', u) := Restart(run, helper);
            && SameTask(run, run') && run'.info.attempts == run.info.attempts + 1
            && run'.certificatesSent == run.certificatesSent
            && (u == NextRound(1) || u.Failed?)
            && (u == NextRound(1) ==> RunOk(env, run') && run'.round == 1 && run'.comm.input == map[])
  {
    StartTaskOk(env, run.(info := run.info.(attempts := run.info.attempts + 1)), helper);
  }

  /** The final step of a PDF task, and of a group task with GG18, ends with a helper
      process. */
  predicate NeedsHelper(run: Run) {
    run.info.kind.PdfTask? || (run.info.kind.GroupTask? && run.protocol.Gg18?)
  }

  /** The last round was complete but yielded neither a result nor a failure: the
      broadcasts were not unanimous, or agreed on a result of an unfit length, or the
      helper process that should have ended the task did not answer. */
  ghost predicate FinalMishap(env: Env, run: Run, order: seq<nat>, helper: Helper)
    requires run.comm.input.Keys <= Indices(run.comm) && Enumerates(order, run.comm.input.Keys)
  {
    && run.round == LastRound(env, run)
    && RoundReceived(run.comm)
    && var final := FinalFrom(env.verify, run.comm, order, None);
       || final.Panic?
       || (final.Message? && (Unfit(run, final.content) || (helper.finish.None? && NeedsHelper(run))))
  }

  lemma FinalizeShape(env: Env, run: Run, order: seq<nat>, helper: Helper)
    requires run.comm.input.Keys <= Indices(run.comm) && Enumerates(order, run.comm.input.Keys)
    ensures var run' := Finalize(env, run, order, helper).0;
            && run' == run.(round := run.round + 1, comm := run'.comm)
            && (run'.comm == run.comm || run'.comm == run.comm.(input := map[]))
  {
    hide FinalFrom, Enumerates, Indices, Weights;
  }

  lemma FinalizeKeeps(env: Env, run: Run, order: seq<nat>, helper: Helper)
    requires WellTyped(run) && DeviceClosed(run.comm) && run.comm.active != map[]
    requires run.info.kind.GroupTask? ==> run.certificatesSent
    requires run.round == LastRound(env, run) && Enumerates(order, run.comm.input.Keys)
    ensures var run' := Finalize(env, run, order, helper).0;
            && RunOk(env, run') && SameTask(run, run') && run'.info == run.info
            && run'.certificatesSent == run.certificatesSent && run'.round == run.round + 1
  {
    FinalizeShape(env, run, order, helper);
    hide Finalize, DeviceClosed, Enumerates;
    var run' := Finalize(env, run, order, helper).0;
    EmptyInboxIsClosed(run.comm.(input := map[]));
  }

  lemma FinalizeOutcome(env: Env, run: Run, order: seq<nat>, helper: Helper)
    requires run.round == LastRound(env, run) && RoundReceived(run.comm)
    requires run.comm.input.Keys <= Indices(run.comm) && Enumerates(order, run.comm.input.Keys)
    ensures var u := Finalize(env, run, order, helper).1;
            && (u == Panicked || u == Refused || u.Failed? || u.Finished?)
            && (u == Panicked || u == Refused <==> FinalMishap(env, run, order, helper))
            && (u == Refused ==> run.info.kind.GroupTask?)
            && (u.Finished? ==> u.round == run.round + 1 && (u.result.GroupEstablished? <==> run.info.kind.GroupTask?))
  {
    hide FinalFrom, Enumerates, RoundReceived, Indices, Weights;
  }

  /** What is left of an update once its batch is in the inbox. */
  lemma StepOk(env: Env, run: Run, order: seq<nat>, helper: Helper)
    requires ValidEnv(env) && WellTyped(run) && DeviceClosed(run.comm) && run.comm.active != map[]
    requires run.info.kind.GroupTask? ==> run.certificatesSent
    requires run.round <= LastRound(env, run) && RoundReceived(run.comm) && Enumerates(order, run.comm.input.Keys)
    ensures var (run', u) := NextStep(env, run, order, helper);
            && SameTask(run, run') && run'.info == run.info && run'.certificatesSent == run.certificatesSent
            && u != CertificatesSent && u != Listen && (RunOk(env, run') || (u.Failed? && run.round == 0))
            && (u.NextRound? ==>
                  u.round == run'.round == run.round + 1 <= LastRound(env, run) && run'.comm.input == map[])
            && (u.Finished? ==> run.round == LastRound(env, run) && u.round == run.round + 1
                                && (u.result.GroupEstablished? <==> run.info.kind.GroupTask?))
            && (u.Failed? ==> run.round == LastRound(env, run) || (run.round == 0 && run.info.kind.PdfTask?))
            && (u == Panicked || u == Refused <==> FinalMishap(env, run, order, helper))
            && (u == Panicked || u == Refused ==> run'.round == run.round + 1) && run'.round >= run.round
  {
    hide DeviceClosed, Enumerates, FinalMishap, RoundReceived, Finalize, StartTask, Relay, SendCertificates;
    MishapIsFinal(env, run, order, helper);
    ClosedWithin(run.comm);
    if run.round == 0 {
      StartTaskOk(env, run, helper);
      assert StartTask(run, helper).0.round >= 0;
    } else if run.round < LastRound(env, run) {
      AdvancedOk(env, run);
    } else {
      FinalizeKeeps(env, run, order, helper);
      FinalizeOutcome(env, run, order, helper);
    }
  }

  lemma AdvancedOk(env: Env, run: Run)
    requires WellTyped(run) && run.comm.active != map[] && (run.info.kind.GroupTask? ==> run.certificatesSent)
    requires run.round < LastRound(env, run)
    ensures RunOk(env, Advanced(run)) && SameTask(run, Advanced(run)) && Advanced(run).comm.input == map[]
    ensures Advanced(run) == run.(round := run.round + 1, comm := Advanced(run).comm)
  {
    hide DeviceClosed;
    EmptyInboxIsClosed(Advanced(run).comm);
  }

  /** No `unreachable!` arm and no round or certificate assertion can fire: an
      update advances only below the last round, finalizes only at it, never sends
      certificates, is refused only to a device that is not awaited, and panics only on
      a misshapen message, but for the final step: that panics or errs if and only if it
      is a mishap, and then the round has moved on. */
  lemma UpdateOk(env: Env, run: Run, device: Bytes, msgs: seq<ClientMessage>, order: seq<nat>, helper: Helper)
    requires ValidEnv(env) && RunOk(env, run)
    requires Enumerates(order, AfterReceiving(run, device, msgs).comm.input.Keys)
    ensures var (run', u) := Update(env, run, device, msgs, order, helper);
            && (RunOk(env, run') || (u.Failed? && run.round == 0)) && SameTask(run, run') && run'.info == run.info
            && run'.certificatesSent == run.certificatesSent
            && u != CertificatesSent
            && (u == Listen ==> run'.round == run.round)
            && (u.NextRound? ==>
                  u.round == run'.round == run.round + 1 <= LastRound(env, run) && run'.comm.input == map[])
            && (u.Finished? ==> run.round == LastRound(env, run) && u.round == run.round + 1
                                && (u.result.GroupEstablished? <==> run.info.kind.GroupTask?))
            && (u.Failed? ==> run.round == LastRound(env, run) || (run.round == 0 && run.info.kind.PdfTask?))
            && (u == Panicked && run' == run ==>
                  WaitingFor(run.comm, device) && Receives(run.comm, device, msgs).Misshapen?)
            && (u == Refused && run' == run ==> !WaitingFor(run.comm, device))
            && ((u == Panicked || u == Refused) && run' != run <==>
                  WaitingFor(run.comm, device) && FinalMishap(env, AfterReceiving(run, device, msgs), order, helper))
            && (run' != run && (u == Panicked || u == Refused) ==> run'.round == run.round + 1)
            && run'.round >= run.round
  {
    hide DeviceClosed, Enumerates, WaitingFor, Receives, Gathered, RoundReceived, FinalMishap, NextStep;
    ReceivingKeepsClosed(run, device, msgs);
    GatheringKeepsTask(run, device, msgs);
    var after := AfterReceiving(run, device, msgs);
    MishapIsFinal(env, after, order, helper);
    if RoundReceived(after.comm) && after.round <= LastRound(env, after) {
      StepOk(env, after, order, helper);
    }
  }

  lemma MishapIsFinal(env: Env, run: Run, order: seq<nat>, helper: Helper)
    requires DeviceClosed(run.comm) && Enumerates(order, run.comm.input.Keys)
    ensures FinalMishap(env, run, order, helper) ==> run.round == LastRound(env, run) && RoundReceived(run.comm)
  {
  }

  lemma GatheringKeepsTask(run: Run, device: Bytes, msgs: seq<ClientMessage>)
    ensures var after := AfterReceiving(run, device, msgs);
            && SameTask(run, after) && after == run.(comm := after.comm)
            && after.comm.output == run.comm.output
  {
  }

  /** The group describes the task that established it. */
  predicate GroupMadeBy(run: Run, g: Group) {
    && run.context.GroupContext? && (run.protocol.Gg18? ==> g.certificate.Some? && |g.id| == 65)
    && g == Group(g.id, run.context.threshold, run.protocol, run.info.keyType, g.certificate,
        Weights(run.info.participants))
  }

  /** The result is of the kind the task was for. */
  predicate ResultMadeBy(run: Run, result: TaskResult) {
    match run.info.kind
    case GroupTask => result.GroupEstablished? && GroupMadeBy(run, result.group)
    case PdfTask => result.SignedPdf?
    case ChallengeTask => result.Signed?
    case DecryptTask => result.Decrypted?
  }

  lemma FinalizeResult(env: Env, run: Run, order: seq<nat>, helper: Helper)
    requires WellTyped(run)
    requires run.comm.input.Keys <= Indices(run.comm) && Enumerates(order, run.comm.input.Keys)
    ensures var (run', u) := Finalize(env, run, order, helper);
            u.Finished? ==> ResultMadeBy(run, u.result) && u.round == run'.round
  {
    hide FinalFrom, Enumerates, Indices, Weights;
  }

  /** A result is made of the task that yields it. */
  lemma UpdateResult(env: Env, run: Run, device: Bytes, msgs: seq<ClientMessage>, order: seq<nat>, helper: Helper)
    requires RunOk(env, run) && Enumerates(order, AfterReceiving(run, device, msgs).comm.input.Keys)
    ensures var (run', u) := Update(env, run, device, msgs, order, helper);
            u.Finished? ==> ResultMadeBy(run, u.result) && u.round == run'.round
  {
    hide DeviceClosed, Enumerates, FinalFrom, WaitingFor, Receives, RoundReceived, Weights, Gathered, Finalize,
         Started, Advanced, SendCertificates;
    ReceivingKeepsClosed(run, device, msgs);
    GatheringKeepsTask(run, device, msgs);
    var after := AfterReceiving(run, device, msgs);
    hide AfterReceiving;
    if after.round == LastRound(env, after) {
      assert after.comm.input.Keys <= Indices(after.comm) by { ClosedWithin(after.comm); }
      FinalizeResult(env, after, order, helper);
    }
  }

  lemma ClosedWithin(c: Comm)
    requires DeviceClosed(c)
    ensures c.input.Keys <= Indices(c)
  {
  }

  /** The batches and final rounds that trip an assertion or an unwrap. */
  ghost predicate Panics(env: Env, run: Run, device: Bytes, msgs: seq<ClientMessage>, order: seq<nat>, helper: Helper)
    requires DeviceClosed(run.comm) && Enumerates(order, AfterReceiving(run, device, msgs).comm.input.Keys)
  {
    var after := AfterReceiving(run, device, msgs);
    ReceivingKeepsClosed(run, device, msgs);
    && WaitingFor(run.comm, device)
    && (|| Receives(run.comm, device, msgs).Misshapen?
        || (FinalMishap(env, after, order, helper)
            && PanickingEnd(run, FinalFrom(env.verify, after.comm, order, None))))
  }

  /** A mishap that panics: all of them but the missing certificate of a group. */
  predicate PanickingEnd(run: Run, final: Final) {
    final.Panic? || run.info.kind.PdfTask? || (final.Message? && Unfit(run, final.content))
  }

  lemma FinalizePanics(env: Env, run: Run, order: seq<nat>, helper: Helper)
    requires run.round == LastRound(env, run) && RoundReceived(run.comm)
    requires run.comm.input.Keys <= Indices(run.comm) && Enumerates(order, run.comm.input.Keys)
    ensures Finalize(env, run, order, helper).1 == Panicked <==>
              && FinalMishap(env, run, order, helper)
              && PanickingEnd(run, FinalFrom(env.verify, run.comm, order, None))
  {
    hide FinalFrom, Enumerates, RoundReceived, Indices, Weights;
  }

  /** An update panics if and only if the batch of an awaited device has a misshapen
      message, or completes a last round whose broadcasts do not agree, or agree on a
      result of an unfit length, or whose PDF helper does not answer. */
  lemma UpdatePanicsIff(env: Env, run: Run, device: Bytes, msgs: seq<ClientMessage>, order: seq<nat>, helper: Helper)
    requires ValidEnv(env) && RunOk(env, run)
    requires Enumerates(order, AfterReceiving(run, device, msgs).comm.input.Keys)
    ensures Update(env, run, device, msgs, order, helper).1 == Panicked <==> Panics(env, run, device, msgs, order, helper)
  {
    hide DeviceClosed, Enumerates, WaitingFor, Receives, Gathered, RoundReceived, FinalMishap, Finalize, StartTask,
         Advanced, SendCertificates, FinalFrom;
    ReceivingKeepsClosed(run, device, msgs);
    GatheringKeepsTask(run, device, msgs);
    var after := AfterReceiving(run, device, msgs);
    MishapIsFinal(env, after, order, helper);
    if RoundReceived(after.comm) && after.round == LastRound(env, after) {
      ClosedWithin(after.comm);
      FinalizePanics(env, after, order, helper);
    } else if RoundReceived(after.comm) && after.round == 0 {
      StartTaskOk(env, after, helper);
    }
  }
}
