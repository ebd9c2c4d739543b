/** How tasks end in every run, told from the messages, the votes and the answers of the
    helper process that brought it about. */
module Outcomes {
  import opened Basics
  import opened Shares
  import opened Voting
  import opened Communication
  import opened Rounds
  import opened Progress
  import opened Store
  import opened Handlers
  import opened Refinement
  import opened Invariant
  import opened System
  import opened Runs
  import opened Messages
  import opened Ballots

  // ----------------------------------------------------------- the completed inbox

  /** The message of index `i`: in the inbox, or in the batch in the place of that index. */
  ghost predicate Answers(c: Comm, device: Bytes, msgs: seq<ClientMessage>, i: nat, msg: ClientMessage) {
    || (i in c.input && c.input[i] == msg)
    || exists k :: 0 <= k < |msgs| && k < |IndicesOf(c, device)| && Ascend(IndicesOf(c, device))[k] == i && msgs[k] == msg
  }

  /** The share with index `i` broadcasts what its device's certificate verifies to `m`. */
  ghost predicate Attests(env: Env, c: Comm, device: Bytes, msgs: seq<ClientMessage>, i: nat, m: Bytes)
    requires i in Indices(c)
  {
    exists msg :: Answers(c, device, msgs, i, msg) && msg.broadcast.Some?
                  && env.verify(msg.broadcast.value, OwnerOf(c, i).certificate) == Some(m)
  }

  /** The batch is of a device with active shares none of which has answered yet, one
      message for each; with it, in the last round, all active shares attest to `m`. */
  ghost predicate Completes(env: Env, run: Run, device: Bytes, msgs: seq<ClientMessage>, m: Bytes) {
    var c := run.comm;
    && run.round == env.lastRound(run.protocol, run.operation)
    && IndicesOf(c, device) != {} && IndicesOf(c, device) !! c.input.Keys && |msgs| == |IndicesOf(c, device)|
    && forall i | i in Indices(c) :: Attests(env, c, device, msgs, i, m)
  }

  lemma PlaceIsUnique(idx: seq<nat>, k: nat, l: nat)
    requires Increasing(idx) && k < |idx| && l < |idx| && idx[k] == idx[l]
    ensures k == l
  {
  }

  lemma AscendPlace(s: set<nat>, k: nat)
    requires k < |s|
    ensures Ascend(s)[k] in s
  {
    assert Ascend(s)[k] in Ascend(s);
    hide Ascend, Increasing;
  }

  lemma AscendFind(s: set<nat>, i: nat) returns (k: nat)
    requires i in s
    ensures k < |s| && Ascend(s)[k] == i
  {
    hide Increasing;
    var idx := Ascend(s);
    assert i in idx;
    k :| 0 <= k < |idx| && idx[k] == i;
  }

  lemma BatchAnswers(c: Comm, device: Bytes, msgs: seq<ClientMessage>, k: nat, msg: ClientMessage)
    requires |msgs| == |IndicesOf(c, device)| && IndicesOf(c, device) !! c.input.Keys && k < |msgs|
    ensures Ascend(IndicesOf(c, device))[k] in IndicesOf(c, device)
    ensures Answers(c, device, msgs, Ascend(IndicesOf(c, device))[k], msg) <==> msg == msgs[k]
  {
    hide IndicesOf, Ascend, Increasing;
    var idx := Ascend(IndicesOf(c, device));
    AscendPlace(IndicesOf(c, device), k);
    if Answers(c, device, msgs, idx[k], msg) {
      assert idx[k] !in c.input;
      var l :| 0 <= l < |msgs| && idx[l] == idx[k] && msgs[l] == msg;
      PlaceIsUnique(idx, k, l);
    }
  }

  lemma GatheredAnswers(c: Comm, device: Bytes, msgs: seq<ClientMessage>, i: nat, msg: ClientMessage)
    requires |msgs| == |IndicesOf(c, device)| && IndicesOf(c, device) !! c.input.Keys
    ensures InputAt(Gathered(c, device, msgs), i) == Some(msg) <==> Answers(c, device, msgs, i, msg)
  {
    hide IndicesOf, Ascend, Increasing, Zip;
    var idx := Ascend(IndicesOf(c, device));
    if i in IndicesOf(c, device) {
      var k := AscendFind(IndicesOf(c, device), i);
      ZipAt(idx, msgs, k);
      BatchAnswers(c, device, msgs, k, msg);
    } else {
      forall k | 0 <= k < |idx| ensures idx[k] != i {
        AscendPlace(IndicesOf(c, device), k);
      }
    }
  }

  lemma GatheredAttests(env: Env, c: Comm, device: Bytes, msgs: seq<ClientMessage>, i: nat, m: Bytes)
    requires |msgs| == |IndicesOf(c, device)| && IndicesOf(c, device) !! c.input.Keys && i in Indices(c)
    ensures Vouches(env.verify, Gathered(c, device, msgs), i, m) <==> Attests(env, c, device, msgs, i, m)
  {
    var c' := Gathered(c, device, msgs);
    assert i in Indices(c') && OwnerOf(c', i) == OwnerOf(c, i);
    hide IndicesOf, Gathered, Indices, OwnerOf, Answers;
    if i in c'.input {
      GatheredAnswers(c, device, msgs, i, c'.input[i]);
    }
    if Attests(env, c, device, msgs, i, m) {
      var msg :| Answers(c, device, msgs, i, msg) && msg.broadcast.Some?
                 && env.verify(msg.broadcast.value, OwnerOf(c, i).certificate) == Some(m);
      GatheredAnswers(c, device, msgs, i, msg);
    }
  }

  /** The batch that completes a last round in agreement is one that gets stored. */
  lemma CompletingIsStored(env: Env, run: Run, device: Bytes, msgs: seq<ClientMessage>, m: Bytes)
    requires Completes(env, run, device, msgs, m)
    ensures Receives(run.comm, device, msgs) == Stored
  {
    hide Answers, Indices;
    var c := run.comm;
    assert IndicesOf(c, device) <= Indices(c);
    hide IndicesOf;
    ReceivesIff(c, device, msgs);
    forall msg | msg in msgs ensures msg.broadcast.Some? {
      var k :| 0 <= k < |msgs| && msgs[k] == msg;
      BatchAnswers(c, device, msgs, k, msg);
      var i := Ascend(IndicesOf(c, device))[k];
      assert Attests(env, c, device, msgs, i, m);
      var other :| Answers(c, device, msgs, i, other) && other.broadcast.Some?;
      BatchAnswers(c, device, msgs, k, other);
    }
  }

  /** The round is complete with this batch. */
  ghost predicate Closes(run: Run, device: Bytes, msgs: seq<ClientMessage>) {
    && WaitingFor(run.comm, device) && Receives(run.comm, device, msgs) == Stored
    && RoundReceived(AfterReceiving(run, device, msgs).comm)
  }

  lemma GatheredIsFull(c: Comm, device: Bytes, msgs: seq<ClientMessage>)
    requires DeviceClosed(c) && |msgs| == |IndicesOf(c, device)|
    ensures RoundReceived(Gathered(c, device, msgs)) <==> Gathered(c, device, msgs).input.Keys == Indices(c)
  {
    GatherKeepsClosed(c, device, msgs);
    RoundReceivedIffNobodyAwaited(Gathered(c, device, msgs));
    hide IndicesOf, DeviceClosed, RoundReceived, WaitingFor;
  }

  lemma AgreementCloses(env: Env, run: Run, device: Bytes, msgs: seq<ClientMessage>, m: Bytes)
    requires RunOk(env, run) && Completes(env, run, device, msgs, m)
    ensures Closes(run, device, msgs)
  {
    hide Attests, RoundReceived, DeviceClosed, WaitingFor, Gathered, Receives, WellTyped;
    var c := run.comm;
    CompletingIsStored(env, run, device, msgs, m);
    AwaitedIsSilent(c, device);
    HasIndices(c, device);
    GatheredIsFull(c, device, msgs);
    assert Gathered(c, device, msgs).input.Keys <= Indices(c) by { ClosedAfter(c, device, msgs); }
    hide IndicesOf, Indices;
    forall i | i in Indices(c) ensures i in Gathered(c, device, msgs).input {
      GatheredAttests(env, c, device, msgs, i, m);
    }
  }

  lemma ClosedAfter(c: Comm, device: Bytes, msgs: seq<ClientMessage>)
    requires DeviceClosed(c) && |msgs| == |IndicesOf(c, device)|
    ensures Gathered(c, device, msgs).input.Keys <= Indices(c)
  {
    GatherKeepsClosed(c, device, msgs);
    SameOwners(c, Gathered(c, device, msgs));
    ClosedWithin(Gathered(c, device, msgs));
  }

  lemma GatheredIsAround(c: Comm, device: Bytes, msgs: seq<ClientMessage>)
    ensures var c' := Gathered(c, device, msgs); c'.active == c.active && c'.protocol == c.protocol
  {
  }

  // ------------------------------------------------------------------- finishing

  /** The batch closes the last round with the agreed message `m` if and only if all
      active shares attest to `m`. */
  lemma CompletesIff(env: Env, run: Run, device: Bytes, msgs: seq<ClientMessage>, order: seq<nat>, m: Bytes)
    requires RunOk(env, run) && Enumerates(order, AfterReceiving(run, device, msgs).comm.input.Keys)
    requires Closes(run, device, msgs) && run.round == LastRound(env, run)
    ensures Completes(env, run, device, msgs, m) <==>
              var c := AfterReceiving(run, device, msgs).comm;
              c.input.Keys <= Indices(c) && FinalFrom(env.verify, c, order, None) == Message(m)
  {
    hide Attests, RoundReceived, DeviceClosed, WaitingFor, Gathered, WellTyped, Vouches, FinalFrom, Enumerates;
    var c, c' := run.comm, Gathered(run.comm, device, msgs);
    ReceivesIff(c, device, msgs);
    AwaitedIsSilent(c, device);
    HasIndices(c, device);
    GatheredIsFull(c, device, msgs);
    GatheredIsAround(c, device, msgs);
    assert c'.input != map[] by { InboxFull(env, run, c'); }
    SameOwners(c, c');
    hide IndicesOf, Indices, Receives;
    FinalMessageExact(env.verify, c', order, m);
    forall i | i in Indices(c) ensures Vouches(env.verify, c', i, m) <==> Attests(env, c, device, msgs, i, m) {
      GatheredAttests(env, c, device, msgs, i, m);
    }
  }

  /** What the task's result must be like, besides agreed on. */
  predicate Fits(groups: Groups, row: TaskRow, m: Bytes, helper: Helper) {
    match row.kind
    case GroupTask => m != [] && m !in groups && (row.protocol == Gg18 ==> |m| == 65 && helper.finish.Some?)
    case PdfTask => |m| == 64 && helper.finish.Some?
    case ChallengeTask => true
    case DecryptTask => true
  }

  /** The task ends with `m`: a signature, a plaintext, the PDF the helper process has
      made with it, or the group with that id. */
  ghost predicate Delivers(groups: Groups, row: TaskRow, m: Bytes, helper: Helper, groups': Groups, slot: Slot) {
    && slot.task.FinishedPhase? && slot.task.acknowledgements == {}
    && match row.kind
       case ChallengeTask =>
         slot.task.result == Signed(m) && slot.row.result == Some(Success(m)) && groups' == groups
       case DecryptTask =>
         slot.task.result == Decrypted(m) && slot.row.result == Some(Success(m)) && groups' == groups
       case PdfTask =>
         && helper.finish.Some? && slot.task.result == SignedPdf(helper.finish.value)
         && slot.row.result == Some(Success(helper.finish.value)) && groups' == groups
       case GroupTask =>
         var certificate := if row.protocol == Gg18 then helper.finish else None;
         && slot.row.result == Some(Success(m))
         && slot.task.result
            == GroupEstablished(Group(m, row.threshold, row.protocol, row.keyType, certificate,
                                      map id | id in row.participants :: row.participants[id].shares))
         && groups'
            == groups[m := GroupRow(row.threshold, row.protocol, row.keyType, certificate,
                                    map id | id in row.participants ::
                                      Participant(row.participants[id].device, row.participants[id].shares))]
  }

  lemma ClosingUpdate(env: Env, run: Run, device: Bytes, msgs: seq<ClientMessage>, order: seq<nat>, helper: Helper)
    requires ValidEnv(env) && RunOk(env, run) && Enumerates(order, AfterReceiving(run, device, msgs).comm.input.Keys)
    ensures var u := Update(env, run, device, msgs, order, helper);
            var after := AfterReceiving(run, device, msgs);
            && after.comm.input.Keys <= Indices(after.comm)
            && (Closes(run, device, msgs) && run.round == LastRound(env, run) ==>
                  u == Finalize(env, after, order, helper))
            && (u.1.Finished? ==> Closes(run, device, msgs) && run.round == LastRound(env, run))
  {
    hide DeviceClosed, Enumerates, WaitingFor, RoundReceived, Gathered, Finalize, StartTask, Advanced,
         SendCertificates;
    ReceivingKeepsClosed(run, device, msgs);
    GatheringKeepsTask(run, device, msgs);
    var after := AfterReceiving(run, device, msgs);
    assert after.comm.input.Keys <= Indices(after.comm) by { ClosedWithin(after.comm); }
    StartTaskOk(env, after, helper);
    if !Receives(run.comm, device, msgs).Stored? && run.round <= LastRound(env, run) {
      assert after == run;
    }
  }

  lemma FinalizeIs(env: Env, run: Run, order: seq<nat>, helper: Helper)
    requires run.comm.input.Keys <= Indices(run.comm) && Enumerates(order, run.comm.input.Keys)
    ensures var u, final := Finalize(env, run, order, helper).1, FinalFrom(env.verify, run.comm, order, None);
            && (u.Finished? ==> final.Message?)
            && (final.Message? ==>
                  var m := final.content;
                  && (u.Finished? ==> u.round == run.round + 1)
                  && match run.info.kind
                     case ChallengeTask => u == Finished(run.round + 1, Signed(m))
                     case DecryptTask => u == Finished(run.round + 1, Decrypted(m))
                     case PdfTask =>
                       if |m| == 64 && helper.finish.Some?
                       then u == Finished(run.round + 1, SignedPdf(helper.finish.value)) else !u.Finished?
                     case GroupTask =>
                       if run.protocol == Gg18 && (|m| != 65 || helper.finish.None?) then !u.Finished?
                       else
                         && u.Finished? && u.result.GroupEstablished?
                         && u.result.group
                            == Group(m, if run.context.GroupContext? then run.context.threshold else 0, run.protocol,
                                     run.info.keyType, if run.protocol == Gg18 then helper.finish else None,
                                     Weights(run.info.participants)))
  {
    hide FinalFrom, Enumerates, Indices, Weights;
  }

  lemma FinishIs(groups: Groups, row: TaskRow, run: Run, round: nat, result: TaskResult)
    ensures var (slot, groups', reply) := Finish(groups, row, run, round, result);
            && (slot.task.FinishedPhase? <==>
                  !result.GroupEstablished? || (result.group.id != [] && result.group.id !in groups))
            && (slot.task.FinishedPhase? ==>
                  && slot.task.result == result && slot.task.acknowledgements == {} && reply == Done
                  && slot.task.info == run.info
                  && match result
                     case GroupEstablished(g) =>
                       && slot.row == row.(round := round, result := Some(Success(g.id)))
                       && groups' == groups[g.id := GroupRow(g.threshold, g.protocol, g.keyType, g.certificate,
                                                             People(row.participants))]
                     case _ =>
                       slot.row == row.(round := round, result := Some(Success(result.data))) && groups' == groups)
  {
    hide People;
  }

  /** What a running task is about, as far as its result is concerned. */
  ghost predicate About(row: TaskRow, run: Run) {
    && run.info.kind == row.kind && run.info.keyType == row.keyType && run.protocol == row.protocol
    && (row.kind.GroupTask? ==>
          && run.context == GroupContext(row.threshold)
          && Weights(run.info.participants) == map id | id in row.participants :: row.participants[id].shares)
  }

  lemma OpenedIsAbout(env: Env, groups: Groups, row: TaskRow, task: Task)
    requires TaskInv(env, groups, row, task) && task.RunningPhase? && Opened(task.run)
    ensures About(row, task.run)
  {
    hide TaskInv, Listing, RunOk, AcceptedRow, ActiveMatches, Startable, RowBase, RoundMatches, Weights;
    OpenedMatches(env, groups, row, task);
    ProtocolMatches(env, groups, row, task.run);
    ListingFacts(row.participants, task.run.info.participants);
  }

  lemma FinishDelivers(groups: Groups, row: TaskRow, run: Run, run': Run, round: nat, result: TaskResult, m: Bytes,
                       helper: Helper)
    requires About(row, run) && Fits(groups, row, m, helper)
    requires match row.kind
             case ChallengeTask => result == Signed(m)
             case DecryptTask => result == Decrypted(m)
             case PdfTask => result == SignedPdf(helper.finish.value)
             case GroupTask =>
               result == GroupEstablished(Group(m, row.threshold, row.protocol, row.keyType,
                                                if row.protocol == Gg18 then helper.finish else None,
                                                Weights(run.info.participants)))
    ensures var (slot, groups', reply) := Finish(groups, row, run', round, result);
            && Delivers(groups, row, m, helper, groups', slot) && reply == Done
            && slot.row == row.(round := round, result := slot.row.result)
  {
    hide Finish, Weights;
    FinishIs(groups, row, run', round, result);
  }

  /** An update of a task in agreement ends it. */
  lemma AgreedFinishes(env: Env, groups: Groups, slot: Slot, device: Bytes, msgs: seq<ClientMessage>, attempt: nat,
                       order: seq<nat>, helper: Helper, m: Bytes)
    requires ValidEnv(env) && TaskInv(env, groups, slot.row, slot.task) && Applies(slot.task, device, msgs, order)
    requires slot.task.RunningPhase? && attempt == slot.task.run.info.attempts
    requires Completes(env, slot.task.run, device, msgs, m) && Fits(groups, slot.row, m, helper)
    ensures var (slot', groups', reply) := UpdateTask(env, groups, slot, device, msgs, attempt, order, helper);
            && Delivers(groups, slot.row, m, helper, groups', slot') && reply == Done
            && slot'.row == slot.row.(round := slot.task.run.round + 1, result := slot'.row.result)
  {
    hide TaskInv, Update, DeviceClosed, Enumerates, AfterReceiving, RunOk, Finish, Closes, Finalize, Delivers, Fits,
         FinalFrom, Weights, Indices;
    var run := slot.task.run;
    var after := AfterReceiving(run, device, msgs);
    AgreedRound(env, run, device, msgs, m);
    OpenedIsOk(env, groups, slot.row, slot.task);
    OpenedIsAbout(env, groups, slot.row, slot.task);
    AgreementCloses(env, run, device, msgs, m);
    CompletesIff(env, run, device, msgs, order, m);
    ClosingUpdate(env, run, device, msgs, order, helper);
    GatheringKeepsTask(run, device, msgs);
    FinalizeIs(env, after, order, helper);
    FitsParts(groups, slot.row, m, helper);
    FinishDelivers(groups, slot.row, run, Update(env, run, device, msgs, order, helper).0, run.round + 1,
                   Update(env, run, device, msgs, order, helper).1.result, m, helper);
  }

  lemma AgreedRound(env: Env, run: Run, device: Bytes, msgs: seq<ClientMessage>, m: Bytes)
    requires ValidEnv(env) && Completes(env, run, device, msgs, m)
    ensures run.round == LastRound(env, run) >= 1
  {
    hide Attests, IndicesOf, Indices;
  }

  lemma FitsParts(groups: Groups, row: TaskRow, m: Bytes, helper: Helper)
    requires Fits(groups, row, m, helper)
    ensures row.kind.PdfTask? ==> |m| == 64 && helper.finish.Some?
    ensures row.kind.GroupTask? && row.protocol == Gg18 ==> |m| == 65 && helper.finish.Some?
  {
  }

  /** An update ends a task only in agreement. */
  lemma FinishedAgreed(env: Env, groups: Groups, slot: Slot, device: Bytes, msgs: seq<ClientMessage>, attempt: nat,
                       order: seq<nat>, helper: Helper) returns (m: Bytes)
    requires ValidEnv(env) && TaskInv(env, groups, slot.row, slot.task) && Applies(slot.task, device, msgs, order)
    requires slot.task.RunningPhase?
    requires UpdateTask(env, groups, slot, device, msgs, attempt, order, helper).0.task.FinishedPhase?
    ensures attempt == slot.task.run.info.attempts
    ensures Completes(env, slot.task.run, device, msgs, m) && Fits(groups, slot.row, m, helper)
  {
    hide TaskInv, Update, DeviceClosed, AfterReceiving, RunOk, Finish, Closes, Finalize, Completes, FinalFrom, Weights,
         Indices, Sound;
    var run := slot.task.run;
    var after := AfterReceiving(run, device, msgs);
    RunningIsOk(env, groups, slot.row, slot.task);
    if slot.row.kind.GroupTask? && !Sound(slot.row) {
      UncertifiedGroup(env, groups, slot.row, slot.task);
      UncertifiedUpdate(env, run, device, msgs, order, helper);
      assert false;
    }
    var u := Update(env, run, device, msgs, order, helper);
    assert u.1.Finished?;
    ClosingUpdate(env, run, device, msgs, order, helper);
    OpenedIsAbout(env, groups, slot.row, slot.task);
    GatheringKeepsTask(run, device, msgs);
    FinalizeIs(env, after, order, helper);
    m := FinalFrom(env.verify, after.comm, order, None).content;
    CompletesIff(env, run, device, msgs, order, m);
    FinishIs(groups, slot.row, u.0, u.1.round, u.1.result);
  }

  // -------------------------------------------------------------------- in every run

  /** The step brings the current attempt of the task to its end, with `m`. */
  ghost predicate Concludes(env: Env, s: Sys, step: Step, tid: nat, m: Bytes)
    requires tid in s.rows && tid in s.cache && s.cache[tid].RunningPhase?
  {
    && step.Submit? && step.tid == tid && step.attempt == s.cache[tid].run.info.attempts
    && Completes(env, s.cache[tid].run, step.device, step.msgs, m) && Fits(s.groups, s.rows[tid], m, step.helper)
  }

  lemma OnlyBatchesFinish(env: Env, s: Sys, step: Step, tid: nat)
    requires ValidEnv(env) && Inv(env, s) && Enabled(s, step) && tid in s.cache && s.cache[tid].RunningPhase?
    requires tid in Apply(env, s, step).cache && Apply(env, s, step).cache[tid].FinishedPhase?
    ensures step.Submit? && step.tid == tid && tid in s.rows
  {
    hide Inv, Apply, Enabled, Decide, UpdateTask, RestartTask, StoreAck, LeftAlone, PassOk;
    var s' := Apply(env, s, step);
    CacheHasRows(env, s);
    if !Touches(s, step, tid) {
      Untouched(env, s, step, tid);
      AloneParts(s, step, s', tid);
      if step.Reboot? { RebootEmpties(env, s); }
    } else {
      TouchedStep(env, s, step, tid);
      if step.CastVote? {
        DecideRefused(SlotOf(s, tid), step.device, step.accept, step.chosen, step.helper);
      } else if step.RestartNext? {
        RestartFinishesNothing(SlotOf(s, tid), step.helper);
      }
    }
  }

  lemma SubmitIs(env: Env, s: Sys, step: Step)
    requires Enabled(s, step) && step.Submit?
    ensures step.tid in s.rows && step.tid in s.cache && Applies(s.cache[step.tid], step.device, step.msgs, step.order)
    ensures var (slot, groups, reply) := UpdateTask(env, s.groups, SlotOf(s, step.tid), step.device, step.msgs,
                                                    step.attempt, step.order, step.helper);
            var s' := Apply(env, s, step);
            && step.tid in s'.rows && step.tid in s'.cache && SlotOf(s', step.tid) == slot && s'.groups == groups
            && ReplyTo(env, s, step) == reply
  {
    hide UpdateTask, Applies, Touched;
  }

  /** In every run, a running task is finished by a step if and only if that step brings
      a batch for its current attempt with which, in the last round, every active share
      attests to one and the same message, and that message fits; the task is then
      finished with it, in memory and on record. */
  lemma FinishesIff(env: Env, b: seq<Sys>, steps: seq<Step>, n: nat, tid: nat)
    requires ValidEnv(env) && Behaviour(env, b, steps) && n < |steps| && n + 1 < |b|
    requires tid in b[n].cache && b[n].cache[tid].RunningPhase?
    ensures tid in b[n].rows
    ensures tid in b[n + 1].cache && b[n + 1].cache[tid].FinishedPhase?
            <==> exists m :: Concludes(env, b[n], steps[n], tid, m)
    ensures forall m | Concludes(env, b[n], steps[n], tid, m) ::
              && tid in b[n + 1].rows && tid in b[n + 1].cache
              && var row, slot := b[n].rows[tid], SlotOf(b[n + 1], tid);
                 && Delivers(b[n].groups, row, m, steps[n].helper, b[n + 1].groups, slot)
                 && slot.row == row.(round := b[n].cache[tid].run.round + 1, result := slot.row.result)
  {
    hide *;
    StepAt(env, b, steps, n + 1);
    RunsKeepInv(env, b, steps, n);
    InvParts(env, b[n], tid);
    forall m | Concludes(env, b[n], steps[n], tid, m)
      ensures steps[n].Submit? && tid in b[n + 1].rows && tid in b[n + 1].cache
      ensures var row, slot := b[n].rows[tid], SlotOf(b[n + 1], tid);
              && Delivers(b[n].groups, row, m, steps[n].helper, b[n + 1].groups, slot)
              && slot.row == row.(round := b[n].cache[tid].run.round + 1, result := slot.row.result)
              && slot.task.FinishedPhase?
    {
      ConcludingStep(env, b[n], steps[n], tid, m);
    }
    if tid in b[n + 1].cache && b[n + 1].cache[tid].FinishedPhase? {
      var m := FinishedStep(env, b[n], steps[n], tid);
    }
    if m :| Concludes(env, b[n], steps[n], tid, m) {
      SlotParts(b[n + 1], tid);
    }
  }

  lemma ConcludingStep(env: Env, s: Sys, step: Step, tid: nat, m: Bytes)
    requires ValidEnv(env) && Enabled(s, step) && tid in s.rows && tid in s.cache && s.cache[tid].RunningPhase?
    requires TaskInv(env, s.groups, s.rows[tid], s.cache[tid]) && Concludes(env, s, step, tid, m)
    ensures var s' := Apply(env, s, step);
            && step.Submit? && tid in s'.rows && tid in s'.cache
            && var row, slot := s.rows[tid], SlotOf(s', tid);
               && Delivers(s.groups, row, m, step.helper, s'.groups, slot) && slot.task.FinishedPhase?
               && slot.row == row.(round := s.cache[tid].run.round + 1, result := slot.row.result)
  {
    hide Apply, Enabled, TaskInv, Applies, UpdateTask, Completes, Fits;
    SubmitIs(env, s, step);
    AgreedFinishes(env, s.groups, SlotOf(s, tid), step.device, step.msgs, step.attempt, step.order, step.helper, m);
  }

  lemma FinishedStep(env: Env, s: Sys, step: Step, tid: nat) returns (m: Bytes)
    requires ValidEnv(env) && Inv(env, s) && Enabled(s, step) && tid in s.cache && s.cache[tid].RunningPhase?
    requires tid in Apply(env, s, step).cache && Apply(env, s, step).cache[tid].FinishedPhase?
    ensures tid in s.rows && Concludes(env, s, step, tid, m)
  {
    hide Apply, Enabled, Inv, TaskInv, RowInv, Applies, UpdateTask, Completes, Fits;
    OnlyBatchesFinish(env, s, step, tid);
    InvParts(env, s, tid);
    SubmitIs(env, s, step);
    m := FinishedAgreed(env, s.groups, SlotOf(s, tid), step.device, step.msgs, step.attempt, step.order, step.helper);
  }

  // ------------------------------------------------------------------- failing

  /** With this batch the inbox is complete, and some broadcast in it does not verify. */
  ghost predicate Disputed(env: Env, run: Run, device: Bytes, msgs: seq<ClientMessage>) {
    exists i, msg :: i in Indices(run.comm) && Answers(run.comm, device, msgs, i, msg) && msg.broadcast.Some?
                     && env.verify(msg.broadcast.value, OwnerOf(run.comm, i).certificate) == None
  }

  /** The reason of a task whose last round yields nothing. */
  predicate NothingOutput(kind: TaskType, reason: string) {
    reason == match kind
              case GroupTask => "Task failed (group key not output)"
              case PdfTask => "Task failed (signature not output)"
              case ChallengeTask => "Task failed (signature not output)"
              case DecryptTask => "Task failed (data not output)"
  }

  lemma UnverifiedIndex(verify: Verifier, c: Comm, order: seq<nat>) returns (i: nat)
    requires c.input.Keys <= Indices(c) && Enumerates(order, c.input.Keys) && c.input != map[]
    requires FinalFrom(verify, c, order, None) == NoMessage
    ensures i in c.input && i in Indices(c) && c.input[i].broadcast.Some?
    ensures verify(c.input[i].broadcast.value, OwnerOf(c, i).certificate) == None
  {
    hide Indices, FinalFrom, OwnerOf, Vouches;
    NoMessageIff(verify, c, order);
    var k: nat, m :| Unverified(verify, c, order, k, m);
    i := order[k];
    assert i in order;
  }

  lemma GatheredOwner(c: Comm, device: Bytes, msgs: seq<ClientMessage>, i: nat)
    requires i in Indices(Gathered(c, device, msgs))
    ensures i in Indices(c) && OwnerOf(Gathered(c, device, msgs), i) == OwnerOf(c, i)
  {
    hide Gathered, Shift;
    GatheredIsAround(c, device, msgs);
  }

  lemma UnverifiedAnswers(env: Env, run: Run, device: Bytes, msgs: seq<ClientMessage>, order: seq<nat>)
    requires RunOk(env, run) && Closes(run, device, msgs)
    requires var c := AfterReceiving(run, device, msgs).comm;
             && c.input.Keys <= Indices(c) && Enumerates(order, c.input.Keys)
             && FinalFrom(env.verify, c, order, None) == NoMessage
    ensures Disputed(env, run, device, msgs)
  {
    hide RoundReceived, DeviceClosed, WaitingFor, Gathered, WellTyped, FinalFrom, Answers, Enumerates, Indices,
         IndicesOf, OwnerOf;
    var c, c' := run.comm, Gathered(run.comm, device, msgs);
    ReceivesIff(c, device, msgs);
    AwaitedIsSilent(c, device);
    GatheredIsAround(c, device, msgs);
    assert c'.input != map[] by { InboxFull(env, run, c'); }
    var i := UnverifiedIndex(env.verify, c', order);
    GatheredOwner(c, device, msgs, i);
    GatheredAnswers(c, device, msgs, i, c'.input[i]);
  }

  lemma FinalizeFails(env: Env, run: Run, order: seq<nat>, helper: Helper)
    requires run.comm.input.Keys <= Indices(run.comm) && Enumerates(order, run.comm.input.Keys)
    ensures var u, final := Finalize(env, run, order, helper).1, FinalFrom(env.verify, run.comm, order, None);
            u.Failed? <==> final == NoMessage
    ensures var u := Finalize(env, run, order, helper).1; u.Failed? ==> NothingOutput(run.info.kind, u.reason)
  {
    hide FinalFrom, Enumerates, Indices, Weights;
  }

  /** The reason of a PDF task whose helper process cannot be used, or makes no hash. */
  predicate NoHash(helper: Helper, reason: string) {
    || (helper.start == None && reason == "Task failed (server error)")
    || (helper.start == Some([]) && reason == "Task failed (invalid PDF)")
  }

  /** How a failing update came about. */
  ghost predicate FailsBecause(env: Env, run: Run, device: Bytes, msgs: seq<ClientMessage>, helper: Helper,
                               reason: string) {
    || (run.info.kind.PdfTask? && run.round == 0 && NoHash(helper, reason))
    || (run.round == env.lastRound(run.protocol, run.operation) && NothingOutput(run.info.kind, reason)
        && Disputed(env, run, device, msgs))
  }

  lemma UpdateFails(env: Env, run: Run, device: Bytes, msgs: seq<ClientMessage>, order: seq<nat>, helper: Helper)
    requires ValidEnv(env) && RunOk(env, run) && Enumerates(order, AfterReceiving(run, device, msgs).comm.input.Keys)
    ensures var u := Update(env, run, device, msgs, order, helper).1;
            u.Failed? ==> FailsBecause(env, run, device, msgs, helper, u.reason)
  {
    hide DeviceClosed, Enumerates, WaitingFor, RoundReceived, Gathered, Finalize, Started, Advanced, SendCertificates,
         Disputed, NothingOutput;
    ReceivingKeepsClosed(run, device, msgs);
    GatheringKeepsTask(run, device, msgs);
    var after := AfterReceiving(run, device, msgs);
    assert after.comm.input.Keys <= Indices(after.comm) by { ClosedWithin(after.comm); }
    var u := Update(env, run, device, msgs, order, helper).1;
    if u.Failed? && run.round == LastRound(env, run) {
      assert Receives(run.comm, device, msgs).Stored? by { assert after != run; }
      FinalizeFails(env, after, order, helper);
      UnverifiedAnswers(env, run, device, msgs, order);
    }
  }

  lemma UpdateTaskFails(env: Env, groups: Groups, slot: Slot, device: Bytes, msgs: seq<ClientMessage>, attempt: nat,
                        order: seq<nat>, helper: Helper)
    requires ValidEnv(env) && TaskInv(env, groups, slot.row, slot.task) && Applies(slot.task, device, msgs, order)
    requires !slot.task.FailedPhase?
    ensures var slot' := UpdateTask(env, groups, slot, device, msgs, attempt, order, helper).0;
            slot'.task.FailedPhase? ==>
              && slot.task.RunningPhase? && attempt == slot.task.run.info.attempts
              && FailsBecause(env, slot.task.run, device, msgs, helper, slot'.task.reason)
  {
    hide TaskInv, Update, DeviceClosed, Enumerates, AfterReceiving, RunOk, NewGroup, ResultBytes, FailsBecause, Sound;
    if slot.task.RunningPhase? && attempt == slot.task.run.info.attempts {
      RunningIsOk(env, groups, slot.row, slot.task);
      if Sound(slot.row) || !slot.row.kind.GroupTask? {
        UpdateFails(env, slot.task.run, device, msgs, order, helper);
      } else {
        UncertifiedGroup(env, groups, slot.row, slot.task);
        UncertifiedUpdate(env, slot.task.run, device, msgs, order, helper);
      }
    }
  }

  lemma DecideFails(slot: Slot, id: Bytes, accept: bool, chosen: seq<Device>, helper: Helper)
    requires slot.task.VotingPhase?
    ensures var task := Decide(slot, id, accept, chosen, helper).0.task;
            task.FailedPhase? ==> slot.task.info.kind.PdfTask? && NoHash(helper, task.reason)
  {
    hide Verdict, TotalShares, Started, SendCertificates, ActiveMap, Tally, IdSet, StoreDecision, Decided, NewComm,
         SortById, WithinPdfLimits;
  }

  lemma RestartFails(slot: Slot, helper: Helper)
    requires slot.task.RunningPhase?
    ensures var task := RestartTask(slot, helper).0.task;
            task.FailedPhase? ==> slot.task.run.info.kind.PdfTask? && NoHash(helper, task.reason)
  {
    hide Started;
  }

  /** How a step made a task fail, for the given reason. */
  ghost predicate FailedBy(env: Env, s: Sys, step: Step, tid: nat, reason: string)
    requires tid in s.cache
  {
    match s.cache[tid]
    case VotingPhase(info, _, _, _) =>
      step.CastVote? && step.tid == tid && info.kind == PdfTask && NoHash(step.helper, reason)
    case RunningPhase(run) =>
      || (step.RestartNext? && s.timer.todo != [] && s.timer.todo[0] == tid && run.info.kind == PdfTask
          && NoHash(step.helper, reason))
      || (step.Submit? && step.tid == tid && step.attempt == run.info.attempts
          && FailsBecause(env, run, step.device, step.msgs, step.helper, reason))
    case _ => false
  }

  lemma HandledFails(env: Env, s: Sys, step: Step, tid: nat)
    requires ValidEnv(env) && Enabled(s, step) && Touches(s, step, tid) && tid in s.rows && tid in s.cache
    requires TaskInv(env, s.groups, s.rows[tid], s.cache[tid]) && !s.cache[tid].FailedPhase?
    requires Handled(env, s, step, tid).task.FailedPhase?
    ensures FailedBy(env, s, step, tid, Handled(env, s, step, tid).task.reason)
  {
    hide Decide, UpdateTask, RestartTask, StoreAck, TaskInv, Draws, Applies, FailsBecause;
    var slot := SlotOf(s, tid);
    match step
    case CastVote(_, device, accept, _, chosen, helper) =>
      DecideRefused(slot, device, accept, chosen, helper);
      if slot.task.VotingPhase? { DecideFails(slot, device, accept, chosen, helper); }
    case Submit(_, device, msgs, attempt, order, helper) =>
      UpdateTaskFails(env, s.groups, slot, device, msgs, attempt, order, helper);
    case Confirm(_, _) =>
    case RestartNext(helper) =>
      if slot.task.RunningPhase? { RestartFails(slot, helper); }
  }

  /** In every run, a task fails only at its start or restart, if it is a PDF task and its
      helper process cannot be used or makes no hash, or in its last round, over a broadcast that does
      not verify and for the reason that goes with its kind; the reason is on record. */
  lemma FailureIsTold(env: Env, b: seq<Sys>, steps: seq<Step>, n: nat, tid: nat)
    requires ValidEnv(env) && Behaviour(env, b, steps) && n < |steps| && n + 1 < |b|
    requires tid in b[n].cache && !b[n].cache[tid].FailedPhase?
    requires tid in b[n + 1].cache && b[n + 1].cache[tid].FailedPhase?
    ensures var reason := b[n + 1].cache[tid].reason;
            && FailedBy(env, b[n], steps[n], tid, reason)
            && tid in b[n + 1].rows && b[n + 1].rows[tid].result == Some(Failure(reason))
  {
    hide *;
    StepAt(env, b, steps, n + 1);
    RunsKeepInv(env, b, steps, n);
    RunsKeepInv(env, b, steps, n + 1);
    InvParts(env, b[n], tid);
    InvParts(env, b[n + 1], tid);
    CacheHasRows(env, b[n]);
    EndedPhases(env, b[n + 1].groups, b[n + 1].rows[tid], b[n + 1].cache[tid]);
    if !Touches(b[n], steps[n], tid) {
      Untouched(env, b[n], steps[n], tid);
      AloneParts(b[n], steps[n], b[n + 1], tid);
      if steps[n].Reboot? { RebootEmpties(env, b[n]); }
    } else {
      TouchedStep(env, b[n], steps[n], tid);
      SlotParts(b[n + 1], tid);
      HandledFails(env, b[n], steps[n], tid);
    }
  }

  // ---------------------------------------------------------- batches that are taken

  /** A batch the server takes: one message for each active share of a device of which
      none has answered; each with a broadcast, or addressed to all active shares but one. */
  ghost predicate Proper(c: Comm, device: Bytes, msgs: seq<ClientMessage>) {
    && IndicesOf(c, device) != {} && IndicesOf(c, device) !! c.input.Keys && |msgs| == |IndicesOf(c, device)|
    && forall msg | msg in msgs ::
         msg.broadcast.Some? || exists i :: i in Indices(c) && msg.unicasts.Keys == Indices(c) - {i}
  }

  lemma ProperIsStored(c: Comm, device: Bytes, msgs: seq<ClientMessage>)
    requires Proper(c, device, msgs) && |c.active| == c.threshold
    ensures Receives(c, device, msgs) == Stored
  {
    hide IndicesOf, Indices;
    ReceivesIff(c, device, msgs);
    ManyIndices(c);
    forall m | m in msgs && m.broadcast.None? ensures |m.unicasts| + 1 == c.threshold {
      var i :| i in Indices(c) && m.unicasts.Keys == Indices(c) - {i};
      assert |m.unicasts| == |m.unicasts.Keys|;
    }
  }

  lemma ProperUpdate(env: Env, run: Run, device: Bytes, msgs: seq<ClientMessage>, order: seq<nat>, helper: Helper,
                     other: Bytes)
    requires RunOk(env, run) && Enumerates(order, AfterReceiving(run, device, msgs).comm.input.Keys)
    requires Proper(run.comm, device, msgs) && |run.comm.active| == run.comm.threshold
    requires other != device && IndicesOf(run.comm, other) != {} && IndicesOf(run.comm, other) !! run.comm.input.Keys
    ensures Update(env, run, device, msgs, order, helper)
            == (run.(comm := Gathered(run.comm, device, msgs)), Listen)
  {
    hide IndicesOf, Indices, DeviceClosed, WellTyped, Enumerates, RoundReceived, WaitingFor, Gathered, Receives,
         Proper, NextStep;
    var c := run.comm;
    assert IndicesOf(c, device) != {} && IndicesOf(c, device) !! c.input.Keys && |msgs| == |IndicesOf(c, device)| by {
      ProperParts(c, device, msgs);
    }
    ProperIsStored(c, device, msgs);
    AwaitedIsSilent(c, device);
    AwaitedIsSilent(c, other);
    HasIndices(c, device);
    HasIndices(c, other);
    AwaitedAfterStoring(c, device, msgs, other);
    GatherKeepsClosed(c, device, msgs);
    RoundReceivedIffNobodyAwaited(Gathered(c, device, msgs));
  }

  lemma ProperParts(c: Comm, device: Bytes, msgs: seq<ClientMessage>)
    requires Proper(c, device, msgs)
    ensures IndicesOf(c, device) != {} && IndicesOf(c, device) !! c.input.Keys && |msgs| == |IndicesOf(c, device)|
  {
    hide IndicesOf, Indices;
  }

  lemma MakeableIsExact(env: Env, groups: Groups, row: TaskRow, task: Task)
    requires TaskInv(env, groups, row, task) && task.RunningPhase? && Opened(task.run) && Makeable(row)
    ensures RunOk(env, task.run) && |task.run.comm.active| == task.run.comm.threshold
  {
    hide TaskInv, RunOk, Makeable, Constructible, Acceptable, DeviceClosed;
    MakeableIff(row);
    RunningIsOk(env, groups, row, task);
  }

  /** In every run, such a batch for the current attempt of a task that could be made is
      taken: while another device is awaited, the call succeeds, and the inbox then has
      the batch's messages by index and otherwise what it had. */
  lemma ProperBatchIsTaken(env: Env, b: seq<Sys>, steps: seq<Step>, n: nat, tid: nat, other: Bytes)
    requires ValidEnv(env) && Behaviour(env, b, steps) && n < |steps| && n + 1 < |b|
    requires tid in b[n].rows && tid in b[n].cache && b[n].cache[tid].RunningPhase? && Makeable(b[n].rows[tid])
    requires steps[n].Submit? && steps[n].tid == tid
    requires var run := b[n].cache[tid].run;
             && (run.round >= 1 || run.certificatesSent) && steps[n].attempt == run.info.attempts
             && Proper(run.comm, steps[n].device, steps[n].msgs)
             && other != steps[n].device && IndicesOf(run.comm, other) != {}
             && IndicesOf(run.comm, other) !! run.comm.input.Keys
    ensures Enabled(b[n], steps[n]) && ReplyTo(env, b[n], steps[n]) == Done
    ensures tid in b[n + 1].rows && b[n + 1].rows[tid] == b[n].rows[tid]
    ensures tid in b[n + 1].cache && b[n + 1].cache[tid].RunningPhase?
    ensures var run, run' := b[n].cache[tid].run, b[n + 1].cache[tid].run;
            && run' == run.(comm := run.comm.(input := run'.comm.input))
            && forall i, msg :: InputAt(run'.comm, i) == Some(msg) <==>
                                  Answers(run.comm, steps[n].device, steps[n].msgs, i, msg)
  {
    hide *;
    StepAt(env, b, steps, n + 1);
    RunsKeepInv(env, b, steps, n);
    InvParts(env, b[n], tid);
    TakenStep(env, b[n], steps[n], other);
    SlotParts(b[n + 1], tid);
  }

  lemma TakenStep(env: Env, s: Sys, step: Step, other: Bytes)
    requires ValidEnv(env) && Enabled(s, step) && step.Submit? && step.tid in s.rows && step.tid in s.cache
    requires TaskInv(env, s.groups, s.rows[step.tid], s.cache[step.tid]) && Makeable(s.rows[step.tid])
    requires s.cache[step.tid].RunningPhase?
    requires var run := s.cache[step.tid].run;
             && (run.round >= 1 || run.certificatesSent) && step.attempt == run.info.attempts
             && Proper(run.comm, step.device, step.msgs)
             && other != step.device && IndicesOf(run.comm, other) != {}
             && IndicesOf(run.comm, other) !! run.comm.input.Keys
    ensures ReplyTo(env, s, step) == Done
    ensures var s' := Apply(env, s, step);
            && step.tid in s'.rows && step.tid in s'.cache
            && var slot' := SlotOf(s', step.tid);
               && slot'.row == s.rows[step.tid] && slot'.task.RunningPhase?
               && var run, run' := s.cache[step.tid].run, slot'.task.run;
                  && run' == run.(comm := run.comm.(input := run'.comm.input))
                  && forall i, msg :: InputAt(run'.comm, i) == Some(msg) <==>
                                        Answers(run.comm, step.device, step.msgs, i, msg)
  {
    hide Apply, Enabled, ReplyTo, TaskInv, RunOk, Update, DeviceClosed, Enumerates, AfterReceiving, Makeable, Proper,
         IndicesOf, Answers;
    SubmitIs(env, s, step);
    var run := s.cache[step.tid].run;
    MakeableIsExact(env, s.groups, s.rows[step.tid], s.cache[step.tid]);
    ProperUpdate(env, run, step.device, step.msgs, step.order, step.helper, other);
    ProperParts(run.comm, step.device, step.msgs);
    GatheredShape(run.comm, step.device, step.msgs);
    forall i, msg ensures InputAt(Gathered(run.comm, step.device, step.msgs), i) == Some(msg) <==>
                            Answers(run.comm, step.device, step.msgs, i, msg) {
      GatheredAnswers(run.comm, step.device, step.msgs, i, msg);
    }
  }

  lemma GatheredShape(c: Comm, device: Bytes, msgs: seq<ClientMessage>)
    ensures Gathered(c, device, msgs) == c.(input := Gathered(c, device, msgs).input)
  {
  }

  // ------------------------------------------------------ after a final step gone wrong

  lemma FinalizeInbox(env: Env, run: Run, order: seq<nat>, helper: Helper)
    requires run.comm.input.Keys <= Indices(run.comm) && Enumerates(order, run.comm.input.Keys)
    requires RoundReceived(run.comm) && run.round == LastRound(env, run) && FinalMishap(env, run, order, helper)
    ensures var final := FinalFrom(env.verify, run.comm, order, None);
            Finalize(env, run, order, helper).0.comm
            == if final.Message? && run.info.kind == PdfTask then run.comm.(input := map[]) else run.comm
  {
    hide FinalFrom, Enumerates, Indices, Weights, RoundReceived;
  }

  lemma ClearedAwaits(c: Comm, id: Bytes)
    ensures WaitingFor(c.(input := map[]), id) <==> IndicesOf(c, id) != {}
  {
    SameOwners(c, c.(input := map[]));
    hide IndicesOf;
  }

  lemma MishapCloses(env: Env, run: Run, device: Bytes, msgs: seq<ClientMessage>, order: seq<nat>, helper: Helper)
    requires ValidEnv(env) && RunOk(env, run) && Enumerates(order, AfterReceiving(run, device, msgs).comm.input.Keys)
    requires var after := AfterReceiving(run, device, msgs);
             && after.comm.input.Keys <= Indices(after.comm) && FinalMishap(env, after, order, helper)
    requires WaitingFor(run.comm, device)
    ensures Closes(run, device, msgs) && run.round == LastRound(env, run)
  {
    hide DeviceClosed, Enumerates, WaitingFor, FinalFrom, RoundReceived, Receives, Gathered, WellTyped, Indices;
  }

  /** After a final step that did not go through nobody is awaited; except in a PDF task
      on whose signature all shares agree, where everybody is awaited anew. */
  lemma MishapAwaits(env: Env, run: Run, device: Bytes, msgs: seq<ClientMessage>, order: seq<nat>, helper: Helper,
                     id: Bytes)
    requires ValidEnv(env) && RunOk(env, run) && Enumerates(order, AfterReceiving(run, device, msgs).comm.input.Keys)
    requires var after := AfterReceiving(run, device, msgs);
             && after.comm.input.Keys <= Indices(after.comm) && FinalMishap(env, after, order, helper)
    requires WaitingFor(run.comm, device)
    ensures WaitingFor(Update(env, run, device, msgs, order, helper).0.comm, id) <==>
              && run.info.kind == PdfTask && IndicesOf(run.comm, id) != {}
              && exists m :: Completes(env, run, device, msgs, m)
  {
    hide DeviceClosed, WaitingFor, FinalFrom, RoundReceived, Update, AfterReceiving, RunOk, Completes, Closes,
         Finalize, Indices, IndicesOf, FinalMishap;
    var after := AfterReceiving(run, device, msgs);
    MishapCloses(env, run, device, msgs, order, helper);
    ClosingUpdate(env, run, device, msgs, order, helper);
    GatheringKeepsTask(run, device, msgs);
    ClosedBuffers(env, run, device, msgs);
    FinalizeInbox(env, after, order, helper);
    RoundReceivedIffNobodyAwaited(after.comm);
    ClearedAwaits(after.comm, id);
    SameOwners(run.comm, after.comm);
    var final := FinalFrom(env.verify, after.comm, order, None);
    forall m ensures Completes(env, run, device, msgs, m) <==> final == Message(m) {
      CompletesIff(env, run, device, msgs, order, m);
    }
    if final.Message? {
      assert Completes(env, run, device, msgs, final.content);
    }
  }

  lemma ClosedBuffers(env: Env, run: Run, device: Bytes, msgs: seq<ClientMessage>)
    requires RunOk(env, run) && Closes(run, device, msgs)
    ensures DeviceClosed(AfterReceiving(run, device, msgs).comm) && RoundReceived(AfterReceiving(run, device, msgs).comm)
  {
    hide DeviceClosed, WaitingFor, Receives, RoundReceived, AfterReceiving, WellTyped;
    ReceivingKeepsClosed(run, device, msgs);
  }

  // -------------------------------------------------------------------- the answers

  /** All is agreed, but the new group gets no certificate, or has an id that is empty or
      in use. */
  predicate Spoiled(groups: Groups, row: TaskRow, m: Bytes, helper: Helper) {
    && row.kind == GroupTask && (row.protocol == Gg18 ==> |m| == 65)
    && ((row.protocol == Gg18 && helper.finish == None) || m == [] || m in groups)
  }

  lemma FinalizeRefuses(env: Env, run: Run, order: seq<nat>, helper: Helper)
    requires run.comm.input.Keys <= Indices(run.comm) && Enumerates(order, run.comm.input.Keys)
    ensures var u, final := Finalize(env, run, order, helper).1, FinalFrom(env.verify, run.comm, order, None);
            u == Refused <==>
              && final.Message? && run.info.kind == GroupTask && run.protocol == Gg18 && |final.content| == 65
              && helper.finish == None
  {
    hide FinalFrom, Enumerates, Indices, Weights;
  }

  lemma UpdateRefusesIff(env: Env, run: Run, device: Bytes, msgs: seq<ClientMessage>, order: seq<nat>, helper: Helper)
    requires ValidEnv(env) && RunOk(env, run) && Enumerates(order, AfterReceiving(run, device, msgs).comm.input.Keys)
    ensures var after := AfterReceiving(run, device, msgs);
            && after.comm.input.Keys <= Indices(after.comm)
            && (Update(env, run, device, msgs, order, helper).1 == Refused <==>
                  || !WaitingFor(run.comm, device)
                  || (Closes(run, device, msgs) && run.round == LastRound(env, run)
                      && Finalize(env, after, order, helper).1 == Refused))
  {
    hide DeviceClosed, Enumerates, WaitingFor, RoundReceived, Gathered, Finalize, StartTask, Advanced,
         SendCertificates;
    ReceivingKeepsClosed(run, device, msgs);
    GatheringKeepsTask(run, device, msgs);
    var after := AfterReceiving(run, device, msgs);
    assert after.comm.input.Keys <= Indices(after.comm) by { ClosedWithin(after.comm); }
    StartTaskOk(env, after, helper);
    if !Receives(run.comm, device, msgs).Stored? && run.round <= LastRound(env, run) {
      assert after == run;
    }
  }

  lemma FinishReply(groups: Groups, row: TaskRow, run: Run, round: nat, result: TaskResult)
    ensures var reply := Finish(groups, row, run, round, result).2;
            && (reply == Done || reply == Rejected)
            && (reply == Rejected <==>
                  result.GroupEstablished? && (result.group.id == [] || result.group.id in groups))
  {
    hide ResultBytes, NewGroup;
  }

  /** An awaited device's batch is answered by an error if and only if it completes the
      last round of a group task in agreement, and the group is spoiled. */
  lemma AwaitedReply(env: Env, groups: Groups, slot: Slot, device: Bytes, msgs: seq<ClientMessage>, order: seq<nat>,
                     helper: Helper)
    requires ValidEnv(env) && TaskInv(env, groups, slot.row, slot.task) && slot.task.RunningPhase?
    requires Applies(slot.task, device, msgs, order) && RunOk(env, slot.task.run)
    ensures var run := slot.task.run;
            UpdateTask(env, groups, slot, device, msgs, run.info.attempts, order, helper).2 == Rejected <==>
              || !WaitingFor(run.comm, device)
              || exists m :: Completes(env, run, device, msgs, m) && Spoiled(groups, slot.row, m, helper)
  {
    hide TaskInv, Update, DeviceClosed, AfterReceiving, RunOk, Finish, Closes, Finalize, Completes, FinalFrom, Weights,
         Indices, WaitingFor;
    var run := slot.task.run;
    var after := AfterReceiving(run, device, msgs);
    var (run', u) := Update(env, run, device, msgs, order, helper);
    UpdateRefusesIff(env, run, device, msgs, order, helper);
    ClosingUpdate(env, run, device, msgs, order, helper);
    GatheringKeepsTask(run, device, msgs);
    if u.Finished? {
      FinishReply(groups, slot.row, run', u.round, u.result);
    }
    if Closes(run, device, msgs) && run.round == LastRound(env, run) {
      OpenedIsAbout(env, groups, slot.row, slot.task);
      FinalizeIs(env, after, order, helper);
      FinalizeRefuses(env, after, order, helper);
      var final := FinalFrom(env.verify, after.comm, order, None);
      forall m ensures Completes(env, run, device, msgs, m) <==> final == Message(m) {
        CompletesIff(env, run, device, msgs, order, m);
      }
      if final.Message? {
        assert Completes(env, run, device, msgs, final.content);
      }
    } else if m :| Completes(env, run, device, msgs, m) {
      AgreedRound(env, run, device, msgs, m);
      AgreementCloses(env, run, device, msgs, m);
    }
  }

  lemma UncertifiedReply(env: Env, groups: Groups, slot: Slot, device: Bytes, msgs: seq<ClientMessage>, order: seq<nat>,
                         helper: Helper)
    requires Applies(slot.task, device, msgs, order) && slot.task.RunningPhase?
    requires slot.task.run.info.kind.GroupTask? && !slot.task.run.certificatesSent
    ensures UpdateTask(env, groups, slot, device, msgs, slot.task.run.info.attempts, order, helper).2 == Rejected
            <==> !WaitingFor(slot.task.run.comm, device)
  {
    hide DeviceClosed, Enumerates, AfterReceiving, WaitingFor, Receives, NextStep;
  }

  /** The answer to a batch for the current attempt. */
  lemma RunningReply(env: Env, groups: Groups, slot: Slot, device: Bytes, msgs: seq<ClientMessage>, order: seq<nat>,
                     helper: Helper)
    requires ValidEnv(env) && TaskInv(env, groups, slot.row, slot.task) && slot.task.RunningPhase?
    requires Applies(slot.task, device, msgs, order)
    ensures var run := slot.task.run;
            UpdateTask(env, groups, slot, device, msgs, run.info.attempts, order, helper).2 == Rejected <==>
              || IndicesOf(run.comm, device) == {} || !(IndicesOf(run.comm, device) !! run.comm.input.Keys)
              || exists m :: Completes(env, run, device, msgs, m) && Spoiled(groups, slot.row, m, helper)
  {
    hide TaskInv, UpdateTask, DeviceClosed, RunOk, Completes, Indices, IndicesOf, WaitingFor, Sound, Spoiled, Applies;
    var run := slot.task.run;
    RunningIsOk(env, groups, slot.row, slot.task);
    AwaitedIsSilent(run.comm, device);
    HasIndices(run.comm, device);
    if Sound(slot.row) || !slot.row.kind.GroupTask? {
      AwaitedReply(env, groups, slot, device, msgs, order, helper);
    } else {
      UncertifiedGroup(env, groups, slot.row, slot.task);
      UncertifiedReply(env, groups, slot, device, msgs, order, helper);
      if m :| Completes(env, run, device, msgs, m) {
        AgreedRound(env, run, device, msgs, m);
      }
    }
  }

  /** In every run, a batch is refused if and only if the task is not running, or in
      another attempt, or the device has no active share or has answered already, or the
      group that all shares agree on is spoiled. */
  lemma BatchRefusedIff(env: Env, b: seq<Sys>, steps: seq<Step>, n: nat)
    requires ValidEnv(env) && Behaviour(env, b, steps) && n < |steps| && steps[n].Submit?
    ensures Enabled(b[n], steps[n]) && steps[n].tid in b[n].rows && steps[n].tid in b[n].cache
    ensures var task, device := b[n].cache[steps[n].tid], steps[n].device;
            ReplyTo(env, b[n], steps[n]) == Rejected <==>
              || !task.RunningPhase? || task.run.info.attempts != steps[n].attempt
              || IndicesOf(task.run.comm, device) == {}
              || !(IndicesOf(task.run.comm, device) !! task.run.comm.input.Keys)
              || exists m :: Completes(env, task.run, device, steps[n].msgs, m)
                             && Spoiled(b[n].groups, b[n].rows[steps[n].tid], m, steps[n].helper)
  {
    hide Behaviour, Inv, TaskInv, RowInv, Completes, Spoiled, IndicesOf, Applies, Update, Apply, Enabled, ReplyTo;
    BeginsEmpty(env, b, steps);
    RunsKeepInv(env, b, steps, n);
    SubmitIs(env, b[n], steps[n]);
    InvParts(env, b[n], steps[n].tid);
    var slot := SlotOf(b[n], steps[n].tid);
    if slot.task.RunningPhase? && slot.task.run.info.attempts == steps[n].attempt {
      hide UpdateTask;
      RunningReply(env, b[n].groups, slot, steps[n].device, steps[n].msgs, steps[n].order, steps[n].helper);
    }
  }

  /** In every run, an acknowledgement is accepted if and only if the task is finished. */
  lemma ReceiptReply(env: Env, b: seq<Sys>, steps: seq<Step>, n: nat)
    requires ValidEnv(env) && Behaviour(env, b, steps) && n < |steps| && n + 1 < |b| && steps[n].Confirm?
    ensures var tid := steps[n].tid;
            && Enabled(b[n], steps[n]) && tid in b[n].cache && tid in b[n + 1].cache
            && ReplyTo(env, b[n], steps[n]) == (if b[n].cache[tid].FinishedPhase? then Done else Rejected)
            && b[n + 1].cache[tid]
               == match b[n].cache[tid]
                  case FinishedPhase(info, result, acks) => FinishedPhase(info, result, acks + {steps[n].device})
                  case other => other
  {
    hide Behaviour, StoreAck;
    StepAt(env, b, steps, n + 1);
  }
}
