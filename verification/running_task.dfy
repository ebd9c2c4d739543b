/** The running task as an object that its communicator and round counter are
    fields of. */
module RunningTasks {
  import opened Basics
  import opened Shares
  import opened Communication
  import opened Rounds

  class RunningTask {
    var info: TaskInfo
    const context: Context
    const protocol: ProtocolType
    const operation: Operation
    const communicator: Communicator
    var round: nat
    var certificatesSent: bool
    var preprocessed: Option<Bytes>

    function Value(): Run
      reads this, communicator
    {
      Run(info, context, protocol, operation, communicator.Value(), round, certificatesSent, preprocessed)
    }

    constructor FromValue(run: Run)
      ensures Value() == run
      ensures fresh(communicator)
    {
      info := run.info;
      context := run.context;
      protocol := run.protocol;
      operation := run.operation;
      var c := new Communicator.FromValue(run.comm);
      communicator := c;
      round := run.round;
      certificatesSent := run.certificatesSent;
      preprocessed := run.preprocessed;
    }

    /** Opens round 1. */
    method InitializeProtocol()
      modifies this, communicator
      ensures Value() == Started(old(Value()))
    {
      hide Increasing, Indices, TotalShares, Ascend;
      ghost var before := Value();
      var idx := communicator.GetProtocolIndices();
      var parties := TotalShares(info.participants);
      var data := preprocessed;
      var f := (i: nat) =>
        match context
        case GroupContext(threshold) =>
          ProtocolGroupInit(protocol, i, parties, if protocol.Musig2? then parties else threshold)
        case ThresholdContext(_, d) => ProtocolInit(protocol, idx, i, if data.Some? then data.value else d);
      communicator.SendToAll(f);
      round := 1;
      assert forall i: nat :: f(i) == InitMessage(before, i);
      assert Value().comm.output == Started(before).comm.output;
    }

    /** A PDF task first asks its helper process for the hash to sign. */
    method Start(helper: Helper) returns (u: RoundUpdate)
      modifies this, communicator
      ensures (Value(), u) == StartTask(old(Value()), helper)
    {
      if info.kind.PdfTask? {
        if helper.start.None? {
          return Failed("Task failed (server error)");
        }
        if helper.start.value == [] {
          return Failed("Task failed (invalid PDF)");
        }
        preprocessed := helper.start;
      }
      InitializeProtocol();
      return NextRound(1);
    }

    /** The certificates of all participants, by protocol index. */
    method CollectCertificates() returns (certs: map<nat, Bytes>)
      ensures certs == Certificates(info.participants, communicator.Value())
    {
      hide Increasing, IndicesOf, Ascend;
      certs := map[];
      var k := |info.participants|;
      while k > 0
        invariant 0 <= k <= |info.participants|
        invariant certs == Certificates(info.participants[k..], communicator.Value())
      {
        k := k - 1;
        var p := info.participants[k];
        var idx := communicator.IdentifierToIndices(p.device.id);
        assert info.participants[k..][1..] == info.participants[k+1..];
        var mine := map i | i in idx :: p.device.certificate;
        assert mine == map i | i in IndicesOf(communicator.Value(), p.device.id) :: p.device.certificate;
        certs := certs + mine;
      }
    }

    method ExchangeCertificates() returns (u: RoundUpdate)
      modifies this, communicator
      ensures Value() == SendCertificates(old(Value())) && u == CertificatesSent
    {
      hide Certificates, Indices, IndicesOf, Increasing;
      ghost var before := Value();
      var certs := CollectCertificates();
      var msg := Relayed(protocol, map[], certs);
      communicator.SendToAll(_ => msg);
      certificatesSent := true;
      assert Value().comm.output == SendCertificates(before).comm.output;
      return CertificatesSent;
    }

    method Advance() returns (u: RoundUpdate)
      modifies this, communicator
      ensures Value() == Advanced(old(Value())) && u == NextRound(old(round) + 1)
    {
      communicator.RelayMessages();
      round := round + 1;
      return NextRound(round);
    }

    method FinalizeTask(env: Env, order: seq<nat>, helper: Helper) returns (u: RoundUpdate)
      requires communicator.input.Keys <= Indices(communicator.Value()) && Enumerates(order, communicator.input.Keys)
      modifies this, communicator
      ensures (Value(), u) == Finalize(env, old(Value()), order, helper)
    {
      hide FinalFrom, Enumerates, Indices;
      round := round + 1;
      var final := communicator.GetFinalMessage(env.verify, order);
      match final {
        case Panic =>
          return Panicked;
        case NoMessage =>
          return Failed(FailureReason(info.kind));
        case Message(m) =>
          if info.kind.GroupTask? {
            if Unfit(Value(), m) {
              return Panicked;
            }
            if protocol.Gg18? && helper.finish.None? {
              return Refused;
            }
            var threshold := if context.GroupContext? then context.threshold else 0;
            var group := Group(m, threshold, protocol, info.keyType,
                               if protocol.Gg18? then helper.finish else None, Weights(info.participants));
            communicator.ClearInput();
            return Finished(round, GroupEstablished(group));
          }
          communicator.ClearInput();
          if info.kind.PdfTask? {
            if Unfit(Value(), m) || helper.finish.None? {
              return Panicked;
            }
            return Finished(round, SignedPdf(helper.finish.value));
          }
          return Finished(round, if info.kind.ChallengeTask? then Signed(m) else Decrypted(m));
      }
    }

    method Next(env: Env, order: seq<nat>, helper: Helper) returns (u: RoundUpdate)
      requires communicator.input.Keys <= Indices(communicator.Value()) && Enumerates(order, communicator.input.Keys)
      modifies this, communicator
      ensures (Value(), u) == NextStep(env, old(Value()), order, helper)
    {
      hide Finalize, StartTask, Advanced, SendCertificates, Enumerates, Indices;
      if info.kind.GroupTask? && !certificatesSent {
        u := ExchangeCertificates();
      } else if round == 0 {
        u := Start(helper);
      } else if round < env.lastRound(protocol, operation) {
        u := Advance();
      } else if round == env.lastRound(protocol, operation) {
        u := FinalizeTask(env, order, helper);
      } else {
        u := Panicked;
      }
    }

    /** Takes a batch from a device and moves on when it completes the round. */
    method UpdateTask(env: Env, device: Bytes, msgs: seq<ClientMessage>, order: seq<nat>, helper: Helper)
      returns (u: RoundUpdate)
      requires DeviceClosed(communicator.Value())
      requires Enumerates(order, AfterReceiving(Value(), device, msgs).comm.input.Keys)
      modifies this, communicator
      ensures (Value(), u) == Update(env, old(Value()), device, msgs, order, helper)
    {
      hide NextStep, Gathered, Receives, WaitingFor, Enumerates, RoundReceived;
      ghost var before := Value();
      ReceivingKeepsClosed(before, device, msgs);
      var waiting := communicator.AwaitsDevice(device);
      if !waiting {
        return Refused;
      }
      if info.kind.GroupTask? && !certificatesSent {
        return Panicked;
      }
      var received := communicator.ReceiveMessages(device, msgs);
      if received.Misshapen? {
        return Panicked;
      }
      assert Value() == AfterReceiving(before, device, msgs);
      var complete := communicator.IsRoundReceived();
      if complete && round <= env.lastRound(protocol, operation) {
        u := Next(env, order, helper);
      } else {
        u := Listen;
      }
    }

    method InitializeTask(helper: Helper) returns (u: RoundUpdate)
      modifies this, communicator
      ensures (Value(), u) == Initialize(old(Value()), helper)
    {
      hide StartTask, SendCertificates;
      if info.kind.GroupTask? {
        u := ExchangeCertificates();
      } else {
        u := Start(helper);
      }
    }

    method RestartTask(helper: Helper) returns (u: RoundUpdate)
      modifies this, communicator
      ensures (Value(), u) == Restart(old(Value()), helper)
    {
      hide StartTask;
      info := info.(attempts := info.attempts + 1);
      u := Start(helper);
    }
  }
}
