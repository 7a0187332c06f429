/**
  What the polling worker makes of the jobs that Master Express submits: it completes them with
  what the same request is answered with when async mode is off.
 */
module AsyncIsSync {
  import opened Prelude
  import opened Json
  import opened AsyncUtils
  import opened JobBatch
  import opened AsyncJobWorker
  import Recovery
  import MultisigSign
  import SendManyFlow
  import SendManySubmitted

  /** The job that the bridge made of what was submitted, once the AWM has answered with `answer`. */
  predicate RunOf(job: Job, submitted: SubmitParams, answer: Result<Fields>) {
    && job.operation == submitted.operation && job.body == Some(submitted.body)
    && job.awmResponse == Some(Answered(answer))
  }

  // ----- Recovery -----

  /** The AWM's recovery endpoint, reached through the bridge. */
  function RecoveryAnswer(awm: Recovery.Awm, coin: Recovery.Coin, m: Fields): Result<Fields> {
    match Recovery.DecodeBody(m)
    case None => Err(BadRequest)
    case Some(body) => Recovery.Single(awm, coin, body)
  }

  /**
    A recovery that is answered as pending has one AWM and has submitted a job for it, under the
    user's key. The worker completes the job, whatever else its record holds, with what the same
    request is answered with when async mode is off, exactly when that is a signed transaction
    by the job schema; otherwise the job fails.
   */
  lemma AsyncRecoveryIsSync(s: Services, user: Recovery.Awm, backup: Recovery.Awm, separate: bool, bridge: Bridge,
                            coinName: string, coin: Recovery.Coin, body: Recovery.Body,
                            id: string, job: Job, tx: Fields)
    requires Recovery.RecoverOrSubmit(user, backup, separate, bridge, coinName, coin, body) == Ok(Recovery.Pending(id))
    requires var submitted := Recovery.RecoveryJob(coinName, body);
             RunOf(job, submitted, RecoveryAnswer(user, coin, submitted.body))
    ensures !separate && bridge.submit(Recovery.RecoveryJob(coinName, body)) == Some(id)
    ensures Outcome(s, job) == Some(Ok(tx)) <==>
              && Recovery.RecoverOrSubmit(user, backup, separate, bridge.(enabled := false), coinName, coin, body) ==
                   Ok(Recovery.Signed(tx))
              && SignedSchema(tx)
    ensures PlanOf(s, job) == Completes <==> exists t :: Recovery.Single(user, coin, body) == Ok(t) && SignedSchema(t)
    ensures PlanOf(s, job) in {Completes, Throws}
  {
    hide Recovery.Single, Recovery.Split, SignedSchema, Recovery.ToFields, Recovery.DecodeBody;
    Recovery.BodyRoundTrip(body);
    var r := Recovery.Single(user, coin, body);
    assert ParseSignedTx(job.awmResponse) == ParseSignedTx(Some(Answered(r)));
    SignedComesThrough(r, tx);
    if r.Ok? {
      SignedComesThrough(r, r.value);
    }
    if ParseSignedTx(job.awmResponse).Ok? {
      SignedComesThrough(r, ParseSignedTx(job.awmResponse).value);
    }
  }

  /** The recovery job goes to the AWM's own route under the user's key. */
  lemma RecoveryJobIs(coinName: string, body: Recovery.Body, k: Key)
    ensures var job := Recovery.RecoveryJob(coinName, body);
            && job.path == "/api/" + coinName + "/multisig/recovery"
            && job.sources == [User] && job.operation == MultisigRecovery
            && Field(job.body, k) ==
                 match k
                 case UserPub => Some(JStr(body.userPub))
                 case BackupPub => Some(JStr(body.backupPub))
                 case UnsignedSweepPrebuildTx => Some(JObj(body.unsigned))
                 case BitgoPub => (match body.bitgoPub case None => None case Some(pub) => Some(JStr(pub)))
                 case WalletContractAddress =>
                   (match body.walletContractAddress case None => None case Some(address) => Some(JStr(address)))
                 case _ => None
  {
    Recovery.BodyField(body, k);
    hide Recovery.ToFields;
  }

  // ----- Signing -----

  /** The answer of the AWM's sign endpoint, reached through the bridge. */
  function SignAnswer(signer: SendManyFlow.Signer, m: Fields): Result<Fields> {
    signer(MultisigSign.ReadSignRequest(m))
  }

  /** The job that a request has submitted, when it is answered as pending. */
  function SubmittedJob(wallets: SendManyFlow.Wallets, bridge: Bridge, signer: SendManyFlow.Signer,
                        req: SendManyFlow.Request, id: string): SubmitParams
    requires SendManyFlow.Handle(wallets, bridge, signer, req) == Ok(SendManyFlow.Pending(id))
  {
    SendManyFlow.AsyncRefinesSync(wallets, bridge, signer, req, id, SendManyFlow.Submission(map[], map[]));
    var (w, keychain) := SendManyFlow.Checked(wallets, bridge, req).value;
    MultisigSign.SignJob(req.coinName, SendManyFlow.Prepare(w, keychain, req).value, SendManyFlow.Context(w, req))
  }

  /**
    A sendMany that is answered as pending has submitted a job. The worker completes it, whatever
    second answer its record holds, with the platform's answer to what the same request submits when
    async mode is off, exactly when that request goes through and the AWM's answer has the job schema.
   */
  lemma AsyncSendIsSync(s: Services, bridge: Bridge, signer: SendManyFlow.Signer, req: SendManyFlow.Request,
                        id: string, job: Job, result: Fields)
    requires SendManyFlow.Handle(s.wallets(req.coinName), bridge, signer, req) == Ok(SendManyFlow.Pending(id))
    requires var submitted := SubmittedJob(s.wallets(req.coinName), bridge, signer, req, id);
             RunOf(job, submitted, SignAnswer(signer, submitted.body)) && job.coin == req.coinName
    ensures var submitted := SubmittedJob(s.wallets(req.coinName), bridge, signer, req, id);
            var answer := SignAnswer(signer, submitted.body);
            && bridge.submit(submitted) == Some(id)
            && (Outcome(s, job) == Some(Ok(result)) <==>
                  && (exists params ::
                        SendManyFlow.Handle(s.wallets(req.coinName), SendManyFlow.Off(bridge), signer, req) ==
                          Ok(SendManyFlow.Sent(SendManyFlow.Submission(params, result))))
                  && answer.Ok? && SignedSchema(answer.value))
  {
    var wallets := s.wallets(req.coinName);
    var submitted := SubmittedJob(wallets, bridge, signer, req, id);
    var (w, keychain) := SendManyFlow.Checked(wallets, bridge, req).value;
    var body := SendManyFlow.Prepare(w, keychain, req).value;
    MultisigSign.SameRequest(body, SendManyFlow.Context(w, req));
    hide SendManyFlow.HandleSign, SendManyFlow.Handle, SignedSchema, MultisigSign.SignJob, SendManyFlow.Prepare;
    hide SendManyFlow.Checked, SendManyFlow.Context, MultisigSign.ReadSignRequest, MultisigSign.SignFields;
    forall submission: SendManyFlow.Submission
      ensures SendManyFlow.HandleSign(wallets, job.body, job.awmResponse) == Ok(submission) <==>
                && SendManyFlow.Handle(wallets, SendManyFlow.Off(bridge), signer, req) ==
                     Ok(SendManyFlow.Sent(submission))
                && SignAnswer(signer, submitted.body).Ok? && SignedSchema(SignAnswer(signer, submitted.body).value)
    {
      SendManyFlow.AsyncRefinesSync(wallets, bridge, signer, req, id, submission);
    }
    if exists params :: SendManyFlow.Handle(wallets, SendManyFlow.Off(bridge), signer, req) ==
                          Ok(SendManyFlow.Sent(SendManyFlow.Submission(params, result))) {
      var params :| SendManyFlow.Handle(wallets, SendManyFlow.Off(bridge), signer, req) ==
                      Ok(SendManyFlow.Sent(SendManyFlow.Submission(params, result)));
      var submission := SendManyFlow.Submission(params, result);
      assert SignAnswer(signer, submitted.body).Ok? && SignedSchema(SignAnswer(signer, submitted.body).value) ==>
               SendManyFlow.HandleSign(wallets, job.body, job.awmResponse) == Ok(submission);
    }
    var handled := SendManyFlow.HandleSign(wallets, job.body, job.awmResponse);
    if handled.Ok? {
      assert handled == Ok(SendManyFlow.Submission(handled.value.params, handled.value.result));
    }
  }

  // ----- Any job -----

  /** What any sign or recovery job is completed with, whoever submitted it. */
  lemma CompletedWith(s: Services, job: Job, result: Fields)
    ensures job.operation == Operation.MultisigSign ==>
              (Outcome(s, job) == Some(Ok(result)) <==>
                 exists params :: SendManySubmitted.WorkerSends(s.wallets(job.coin), job.body, job.awmResponse,
                                                                SendManyFlow.Submission(params, result)))
    ensures job.operation == MultisigRecovery ==>
              (Outcome(s, job) == Some(Ok(result)) <==>
                 SendManySubmitted.Succeeded(job.awmResponse, result) && SignedSchema(result))
  {
    hide SendManySubmitted.WorkerSends, SendManyFlow.HandleSign, SignedSchema;
    var wallets := s.wallets(job.coin);
    var handled := SendManyFlow.HandleSign(wallets, job.body, job.awmResponse);
    forall submission: SendManyFlow.Submission
      ensures handled == Ok(submission) <==>
                SendManySubmitted.WorkerSends(wallets, job.body, job.awmResponse, submission)
    {
      SendManySubmitted.WorkerSendsExactly(wallets, job.body, job.awmResponse, submission);
    }
    if handled.Ok? {
      assert handled == Ok(SendManyFlow.Submission(handled.value.params, handled.value.result));
    }
    SendManySubmitted.ParsedExactly(job.awmResponse, result);
  }
}
