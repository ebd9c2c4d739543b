/** How many answers a running attempt takes. */
module Progress {
  import opened Basics
  import opened Shares
  import opened Communication
  import opened Rounds

  /** The active devices that have answered in the current round. */
  ghost function Answered(c: Comm): set<Bytes> {
    set id | id in ActiveDevices(c) && !WaitingFor(c, id)
  }

  /** Rounds still to be gathered; the certificate round comes before round 1. */
  ghost function RoundsLeft(env: Env, run: Run): int {
    LastRound(env, run) + 1 - run.round
  }

  /** Answers still needed in this attempt. */
  ghost function Work(env: Env, run: Run): int {
    |ActiveDevices(run.comm)| * RoundsLeft(env, run) - |Answered(run.comm)|
  }

  /** A running task whose attempt has begun: round 1 is open, or the certificates of a
      group task are out. */
  ghost predicate Begun(env: Env, run: Run) {
    RunOk(env, run) && (run.info.kind.GroupTask? || run.round >= 1)
  }

  /** The batch is one that gets stored. */
  ghost predicate Accepted(run: Run, device: Bytes, msgs: seq<ClientMessage>) {
    WaitingFor(run.comm, device) && Receives(run.comm, device, msgs).Stored?
  }

  lemma AwaitedAfterStoring(c: Comm, device: Bytes, msgs: seq<ClientMessage>, id: Bytes)
    requires DeviceClosed(c) && |IndicesOf(c, device)| == |msgs|
    ensures WaitingFor(Gathered(c, device, msgs), id) <==> WaitingFor(c, id) && id != device
  {
    var c' := Gathered(c, device, msgs);
    SameOwners(c, c');
    GatherKeepsClosed(c, device, msgs);
    OwnersDisjoint(c, id, device);
    hide Gathered, DeviceClosed, IndicesOf;
  }

  lemma InboxGrows(c: Comm, device: Bytes, msgs: seq<ClientMessage>)
    requires DeviceClosed(c) && WaitingFor(c, device) && |IndicesOf(c, device)| == |msgs|
    ensures |Gathered(c, device, msgs).input| > |c.input|
  {
    AwaitedIsSilent(c, device);
    HasIndices(c, device);
    GatherKeepsClosed(c, device, msgs);
    hide Gathered, DeviceClosed, IndicesOf;
    assert |Gathered(c, device, msgs).input.Keys| == |c.input.Keys| + |IndicesOf(c, device)|;
  }

  lemma StoringAnswers(c: Comm, device: Bytes, msgs: seq<ClientMessage>)
    requires DeviceClosed(c) && WaitingFor(c, device) && |IndicesOf(c, device)| == |msgs|
    ensures Answered(Gathered(c, device, msgs)) == Answered(c) + {device}
    ensures |Answered(Gathered(c, device, msgs))| == |Answered(c)| + 1
    ensures ActiveDevices(Gathered(c, device, msgs)) == ActiveDevices(c)
  {
    hide WaitingFor, DeviceClosed, IndicesOf, Gathered, ActiveDevices;
    var c' := Gathered(c, device, msgs);
    AwaitedIsActive(c, device, msgs);
    forall id ensures WaitingFor(c', id) <==> WaitingFor(c, id) && id != device {
      AwaitedAfterStoring(c, device, msgs, id);
    }
    assert Answered(c') == Answered(c) + {device};
  }

  lemma AwaitedIsActive(c: Comm, device: Bytes, msgs: seq<ClientMessage>)
    requires WaitingFor(c, device)
    ensures device in ActiveDevices(c) && ActiveDevices(Gathered(c, device, msgs)) == ActiveDevices(c)
  {
    HasIndices(c, device);
    SameOwners(c, Gathered(c, device, msgs));
  }

  /** The round is complete exactly when every active device has answered. */
  lemma CompleteWhenAllAnswered(c: Comm)
    requires DeviceClosed(c)
    ensures Answered(c) <= ActiveDevices(c)
    ensures RoundReceived(c) <==> Answered(c) == ActiveDevices(c)
  {
    RoundReceivedIffNobodyAwaited(c);
    if Answered(c) == ActiveDevices(c) {
      forall id ensures !WaitingFor(c, id) {
        HasIndices(c, id);
      }
    }
  }

  lemma NobodyAnswered(c: Comm)
    requires c.input == map[]
    ensures Answered(c) == {}
  {
    forall id | id in ActiveDevices(c) ensures WaitingFor(c, id) {
      HasIndices(c, id);
      var i :| i in IndicesOf(c, id);
    }
  }

  /** The inbox after a stored batch: one more device has answered, and the
      round is complete when all of them have. */
  lemma AfterStoring(env: Env, run: Run, device: Bytes, msgs: seq<ClientMessage>)
    requires RunOk(env, run) && Accepted(run, device, msgs)
    ensures var after := AfterReceiving(run, device, msgs);
            && after == run.(comm := after.comm)
            && ActiveDevices(after.comm) == ActiveDevices(run.comm)
            && |Answered(after.comm)| == |Answered(run.comm)| + 1
            && |after.comm.input| > |run.comm.input|
            && DeviceClosed(after.comm)
            && (RoundReceived(after.comm) <==> |Answered(after.comm)| == |ActiveDevices(run.comm)|)
  {
    var after := AfterReceiving(run, device, msgs);
    assert after.comm == Gathered(run.comm, device, msgs);
    StoringAnswers(run.comm, device, msgs);
    InboxGrows(run.comm, device, msgs);
    ReceivingKeepsClosed(run, device, msgs);
    CompleteWhenAllAnswered(after.comm);
    hide *;
    SubsetSameSize(Answered(after.comm), ActiveDevices(after.comm));
  }

  /** Every stored batch is one unit of work done: it stays in its round, or
      completes it and opens the next one, or was the last one needed.  The pair
      (rounds left, active shares not yet heard) decreases lexicographically. */
  lemma StoredBatchIsProgress(env: Env, run: Run, device: Bytes, msgs: seq<ClientMessage>, order: seq<nat>,
      helper: Helper)
    requires ValidEnv(env) && Begun(env, run) && run.round <= LastRound(env, run)
    requires Enumerates(order, AfterReceiving(run, device, msgs).comm.input.Keys)
    requires Accepted(run, device, msgs)
    ensures var (run', u) := Update(env, run, device, msgs, order, helper);
            && (u.Listen? || u.NextRound? ==>
                  && Work(env, run') == Work(env, run) - 1
                  && run'.round <= LastRound(env, run')
                  && (RoundsLeft(env, run') < RoundsLeft(env, run)
                      || (RoundsLeft(env, run') == RoundsLeft(env, run) && |run'.comm.input| > |run.comm.input|)))
            && (!u.Listen? && !u.NextRound? ==> Work(env, run) == 1)
  {
    hide Update, AfterReceiving, Answered, ActiveDevices, WaitingFor, RoundReceived, Receives, DeviceClosed,
         Enumerates, FinalMishap, Accepted, Indices, IndicesOf;
    AfterStoring(env, run, device, msgs);
    UpdateOk(env, run, device, msgs, order, helper);
    UpdateWhenStored(env, run, device, msgs, order, helper);
    var (run', u) := Update(env, run, device, msgs, order, helper);
    if u.NextRound? {
      SameOwners(run.comm, run'.comm);
      NobodyAnswered(run'.comm);
      OneRoundLess(|ActiveDevices(run.comm)|, RoundsLeft(env, run));
    }
  }

  /** A stored batch is listened to, or, when it completes the round, moves the
      task on or ends it. */
  lemma UpdateWhenStored(env: Env, run: Run, device: Bytes, msgs: seq<ClientMessage>, order: seq<nat>, helper: Helper)
    requires ValidEnv(env) && Begun(env, run) && run.round <= LastRound(env, run)
    requires Enumerates(order, AfterReceiving(run, device, msgs).comm.input.Keys)
    requires Accepted(run, device, msgs)
    ensures var (run', u) := Update(env, run, device, msgs, order, helper);
            var after := AfterReceiving(run, device, msgs);
            && (u.Listen? <==> !RoundReceived(after.comm))
            && (u.Listen? ==> run' == after)
            && (!u.Listen? && !u.NextRound? ==> run.round == LastRound(env, run))
  {
    hide DeviceClosed, Enumerates, Finalize, Gathered, RoundReceived, WaitingFor, Receives, Started, Advanced,
         SendCertificates, Indices;
    ReceivingKeepsClosed(run, device, msgs);
    GatheringKeepsTask(run, device, msgs);
    var after := AfterReceiving(run, device, msgs);
    hide AfterReceiving;
    if RoundReceived(after.comm) && after.round == LastRound(env, after) {
      assert after.comm.input.Keys <= Indices(after.comm) by { ClosedWithin(after.comm); }
      FinalizeOutcome(env, after, order, helper);
    }
  }

  lemma OneRoundLess(d: nat, k: int)
    ensures d * (k - 1) == d * k - d
  {
  }

  /** A batch that is not stored leaves the task as it was. */
  lemma OtherBatchIsNoProgress(env: Env, run: Run, device: Bytes, msgs: seq<ClientMessage>, order: seq<nat>,
      helper: Helper)
    requires RunOk(env, run) && Enumerates(order, AfterReceiving(run, device, msgs).comm.input.Keys)
    requires !Accepted(run, device, msgs)
    ensures Update(env, run, device, msgs, order, helper).0 == run
    ensures var u := Update(env, run, device, msgs, order, helper).1; u == Refused || u == Panicked || u == Listen
  {
    RoundReceivedIffNobodyAwaited(run.comm);
  }

  lemma UpdateKeepsBegun(env: Env, run: Run, device: Bytes, msgs: seq<ClientMessage>, order: seq<nat>, helper: Helper)
    requires ValidEnv(env) && Begun(env, run) && Enumerates(order, AfterReceiving(run, device, msgs).comm.input.Keys)
    ensures Begun(env, Update(env, run, device, msgs, order, helper).0)
  {
    hide Update, RunOk, Enumerates, AfterReceiving, FinalMishap, WaitingFor, Receives;
    UpdateOk(env, run, device, msgs, order, helper);
  }

  // ----------------------------------------------------- a whole attempt

  datatype Batch = Batch(device: Bytes, msgs: seq<ClientMessage>, order: seq<nat>, helper: Helper)

  /** The walk order given with a batch is a walk of the inbox. */
  ghost predicate Walks(run: Run, b: Batch) {
    Enumerates(b.order, AfterReceiving(run, b.device, b.msgs).comm.input.Keys)
  }

  /** The task still gathers messages after these updates; `None` once a final
      step has been taken. */
  ghost function Feed(env: Env, run: Run, batches: seq<Batch>): Option<Run>
    requires ValidEnv(env) && Begun(env, run)
    decreases |batches|
  {
    if batches == [] then Some(run)
    else if !Walks(run, batches[0]) then Feed(env, run, batches[1..])
    else
      var b := batches[0];
      var (run', u) := Update(env, run, b.device, b.msgs, b.order, b.helper);
      UpdateKeepsBegun(env, run, b.device, b.msgs, b.order, b.helper);
      if Leaves(run, b, u) then None else Feed(env, run', batches[1..])
  }

  /** A final step: the result, a failure, or a mishap. */
  ghost predicate Leaves(run: Run, b: Batch, u: RoundUpdate) {
    Accepted(run, b.device, b.msgs) && !u.Listen? && !u.NextRound?
  }

  /** How many batches were stored before the task left the gathering rounds. */
  ghost function Stores(env: Env, run: Run, batches: seq<Batch>): nat
    requires ValidEnv(env) && Begun(env, run)
    decreases |batches|
  {
    if batches == [] then 0
    else if !Walks(run, batches[0]) then Stores(env, run, batches[1..])
    else
      var b := batches[0];
      var (run', u) := Update(env, run, b.device, b.msgs, b.order, b.helper);
      UpdateKeepsBegun(env, run, b.device, b.msgs, b.order, b.helper);
      if Leaves(run, b, u) then 1
      else (if Accepted(run, b.device, b.msgs) then 1 else 0) + Stores(env, run', batches[1..])
  }

  lemma {:induction false} WorkIsStored(env: Env, run: Run, batches: seq<Batch>)
    requires ValidEnv(env) && Begun(env, run) && run.round <= LastRound(env, run)
    ensures Feed(env, run, batches).Some? ==>
        Work(env, Feed(env, run, batches).value) == Work(env, run) - Stores(env, run, batches) >= 1
    ensures Feed(env, run, batches).None? ==> Work(env, run) == Stores(env, run, batches)
    decreases |batches|
  {
    hide Work, WaitingFor, Receives, Update, Enumerates, Accepted, DeviceClosed, RoundReceived;
    if batches == [] {
      WorkRemains(env, run);
    } else if !Walks(run, batches[0]) {
      WorkIsStored(env, run, batches[1..]);
    } else {
      var b := batches[0];
      var (run', u) := Update(env, run, b.device, b.msgs, b.order, b.helper);
      UpdateKeepsBegun(env, run, b.device, b.msgs, b.order, b.helper);
      if Accepted(run, b.device, b.msgs) {
        StoredBatchIsProgress(env, run, b.device, b.msgs, b.order, b.helper);
      } else {
        OtherBatchIsNoProgress(env, run, b.device, b.msgs, b.order, b.helper);
      }
      if !Leaves(run, b, u) {
        WorkIsStored(env, run', batches[1..]);
      }
    }
  }

  /** A task that is still gathering needs at least one more answer. */
  lemma WorkRemains(env: Env, run: Run)
    requires RunOk(env, run) && run.round <= LastRound(env, run)
    ensures Work(env, run) >= 1
  {
    CompleteWhenAllAnswered(run.comm);
    SubsetSameSize(Answered(run.comm), ActiveDevices(run.comm));
    hide Answered, ActiveDevices, RunOk;
    AtLeastOneRound(|ActiveDevices(run.comm)|, RoundsLeft(env, run));
  }

  lemma AtLeastOneRound(d: nat, k: int)
    requires k >= 1
    ensures d * k >= d
  {
  }

  /** From the moment a round is opened, the attempt ends after exactly as many
      stored answers as there are active devices times rounds to gather, and not
      before. */
  lemma AttemptLength(env: Env, run: Run, batches: seq<Batch>)
    requires ValidEnv(env) && Begun(env, run) && run.round <= LastRound(env, run) && run.comm.input == map[]
    ensures var total := |ActiveDevices(run.comm)| * RoundsLeft(env, run);
            && Stores(env, run, batches) <= total
            && (Feed(env, run, batches).None? <==> Stores(env, run, batches) == total)
  {
    NobodyAnswered(run.comm);
    hide RunOk;
    WorkIsStored(env, run, batches);
  }

  /** The rounds of an attempt: all of the protocol's, and the certificate round
      before them in the first attempt of a group task. */
  lemma AttemptRounds(env: Env, run: Run, helper: Helper)
    requires ValidEnv(env) && WellTyped(run) && run.comm.active != map[]
    ensures run.round == 0 && !Initialize(run, helper).1.Failed? ==>
              RoundsLeft(env, Initialize(run, helper).0)
              == LastRound(env, run) + if run.info.kind.GroupTask? then 1 else 0
    ensures RunOk(env, run) && !Restart(run, helper).1.Failed? ==>
              RoundsLeft(env, Restart(run, helper).0) == LastRound(env, run)
  {
    hide DeviceClosed, RoundReceived;
    if run.round == 0 {
      InitializeOk(env, run, helper);
    }
    if RunOk(env, run) {
      RestartOk(env, run, helper);
    }
  }

  // -------------------------------------------------------------- handing out work

  /** A device is given work if and only if it owns an active share and has not
      answered in this round; then it gets one entry per active share, the j-th of them
      what is there for its j-th index. */
  lemma WorkIffSilent(env: Env, run: Run, device: Bytes)
    requires RunOk(env, run)
    ensures var mine := IndicesOf(run.comm, device);
            && (GetWork(run, device) != [] <==> device in ActiveDevices(run.comm) && mine !! run.comm.input.Keys)
            && (GetWork(run, device) != [] ==> |GetWork(run, device)| == |mine|)
            && Increasing(Ascend(mine)) && (forall i :: i in Ascend(mine) <==> i in mine)
            && forall j | 0 <= j < |GetWork(run, device)| ::
                 var i := Ascend(mine)[j];
                 GetWork(run, device)[j] == if i in run.comm.output then Some(run.comm.output[i]) else None
  {
    AwaitedIsSilent(run.comm, device);
    HasIndices(run.comm, device);
    hide WaitingFor, IndicesOf, ActiveDevices, DeviceClosed, RoundReceived;
  }

  lemma {:induction false} CertificateOf(ps: seq<Participant>, c: Comm, p: Participant, i: nat)
    requires DistinctIds(ps) && p in ps && i in IndicesOf(c, p.device.id)
    ensures i in Certificates(ps, c) && Certificates(ps, c)[i] == p.device.certificate
    decreases |ps|
  {
    if p == ps[0] {
    } else {
      assert p in ps[1..];
      CertificateOf(ps[1..], c, p, i);
      OwnersDisjoint(c, p.device.id, ps[0].device.id);
      hide IndicesOf;
    }
  }

  lemma {:induction false} CertificateKeys(ps: seq<Participant>, c: Comm, i: nat)
    ensures i in Certificates(ps, c) ==> i in Indices(c)
  {
    hide Indices;
    if ps != [] { CertificateKeys(ps[1..], c, i); }
  }

  /** In the certificate round every share is told, under each active index, the
      certificate of the device that index belongs to, and nothing else. */
  lemma CertificatesExact(run: Run, counts: map<Bytes, nat>, i: nat)
    requires DistinctIds(run.info.participants) && run.comm.active == ActiveMap(run.info.participants, counts)
    ensures var certificates := Certificates(run.info.participants, run.comm);
            && (i in certificates <==> i in Indices(run.comm))
            && (i in certificates ==> certificates[i] == OwnerOf(run.comm, i).certificate)
  {
    hide ActiveMap, Certificates, DistinctIds, FirstIndex, Shift;
    CertificateKeys(run.info.participants, run.comm, i);
    if i in Indices(run.comm) {
      var p := ActiveOwner(run.info.participants, counts, i - IndexOffset(run.comm.protocol));
      CertificateOf(run.info.participants, run.comm, p, i);
    }
  }

  /** Protocol indices start at the protocol's offset and stay below it plus the
      number of shares; FROST's are never zero. */
  lemma IndexRange(c: Comm, ps: seq<Participant>, counts: map<Bytes, nat>, i: nat)
    requires DistinctIds(ps) && c.active == ActiveMap(ps, counts) && i in Indices(c)
    ensures IndexOffset(c.protocol) <= i < IndexOffset(c.protocol) + TotalShares(ps)
    ensures c.protocol.Frost? ==> i != 0
  {
    hide ActiveMap, DistinctIds, FirstIndex, Shift, TotalShares;
    var p := ActiveOwner(ps, counts, i - IndexOffset(c.protocol));
  }

  // ------------------------------------------------------------ unanimous is finished

  /** Nothing stands between the agreed result and the end of the task. */
  predicate Ends(run: Run, m: Bytes, helper: Helper) {
    !Unfit(run, m) && (NeedsHelper(run) ==> helper.finish.Some?)
  }

  /** The result a task makes of what its shares agreed on. */
  predicate Yields(run: Run, m: Bytes, helper: Helper, result: TaskResult) {
    match run.info.kind
    case GroupTask => result.GroupEstablished? && result.group.id == m
    case PdfTask => helper.finish.Some? && result == SignedPdf(helper.finish.value)
    case ChallengeTask => result == Signed(m)
    case DecryptTask => result == Decrypted(m)
  }

  lemma FinalizeFinishes(env: Env, run: Run, order: seq<nat>, helper: Helper, m: Bytes)
    requires run.comm.input.Keys <= Indices(run.comm) && Enumerates(order, run.comm.input.Keys)
    requires run.comm.input != map[] && (forall i | i in run.comm.input :: Vouches(env.verify, run.comm, i, m))
    ensures var u := Finalize(env, run, order, helper).1;
            && (u.Finished? <==> Ends(run, m, helper))
            && (u.Finished? ==> u.round == run.round + 1 && Yields(run, m, helper, u.result))
  {
    hide FinalFrom, Enumerates, Indices, Weights, Vouches;
    FinalMessageExact(env.verify, run.comm, order, m);
  }

  /** The batch that completes the last round, with every share's broadcast verifying to
      one and the same result, finishes the task with that result if and only if the
      result has the length the task needs and the helper process, if it needs one,
      answers. */
  lemma UnanimousFinishes(env: Env, run: Run, device: Bytes, msgs: seq<ClientMessage>, order: seq<nat>, helper: Helper,
                          m: Bytes)
    requires RunOk(env, run) && run.round == LastRound(env, run) >= 1 && Accepted(run, device, msgs)
    requires Enumerates(order, AfterReceiving(run, device, msgs).comm.input.Keys)
    requires var c := AfterReceiving(run, device, msgs).comm;
             RoundReceived(c) && forall i | i in c.input :: Vouches(env.verify, c, i, m)
    ensures var u := Update(env, run, device, msgs, order, helper).1;
            && (u.Finished? <==> Ends(run, m, helper))
            && (u.Finished? ==> u.round == run.round + 1 && Yields(run, m, helper, u.result))
  {
    hide Finalize, Vouches, Enumerates, Gathered, DeviceClosed, RoundReceived, WaitingFor, StartTask, Advanced,
         SendCertificates;
    var after := AfterReceiving(run, device, msgs);
    GatheringKeepsTask(run, device, msgs);
    ReceivingKeepsClosed(run, device, msgs);
    ClosedWithin(after.comm);
    assert after.comm.input != map[] by { InboxFull(env, run, after.comm); }
    FinalizeFinishes(env, after, order, helper, m);
  }

  lemma InboxFull(env: Env, run: Run, c: Comm)
    requires RunOk(env, run) && c.active == run.comm.active && RoundReceived(c)
    ensures c.input != map[]
  {
    assert |c.active| > 0;
  }
}
