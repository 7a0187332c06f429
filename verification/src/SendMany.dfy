/**
  Sending from a multisig wallet: at once, or as a job that a worker finishes later. The
  submission to BitGo's wallet platform is to be the same either way.
 */
module SendManyFlow {
  import opened Prelude
  import opened Json
  import opened AsyncUtils
  import opened MultisigSign

  datatype Keychain = Keychain(pub: Option<string>, commonKeychain: Option<string>, isBackup: bool)

  datatype Algorithm = Ecdsa | Eddsa | OtherAlgorithm

  /** A wallet and its coin, as the SDK serves them. */
  datatype Wallet = Wallet(
    advanced: bool, tss: bool, algorithm: Algorithm, isUtxo: bool,
    keychain: Source -> Option<Keychain>,
    prebuild: Fields -> Option<Json>,
    verify: (Fields, Json) -> Option<bool>,
    walletPubs: Result<Option<seq<string>>>,
    extraPrebuildParams: Json -> Option<Fields>,
    whitelist: set<Key>,
    submit: Fields -> Option<Fields>)

  // ----- Submitting a signed transaction -----

  /** The parameters a transaction was submitted with, and the platform's answer. */
  datatype Submission = Submission(params: Fields, result: Fields)

  /** `_.pick(params, keys)`. */
  function Pick(params: Json, keys: set<Key>): Fields {
    if params.JObj? then map k | k in params.fields && k in keys :: params.fields[k] else map[]
  }

  function Compose(w: Wallet, kind: SubmitKind, signedTx: Fields, params: Json): Result<Fields> {
    match kind
    case SendMany =>
      var extra :- w.extraPrebuildParams(params).OkOr(Network);
      Ok(signedTx + extra)
    case Accelerate => Ok(signedTx + Pick(params, w.whitelist))
    case ConsolidateUnspents => Ok((signedTx + Pick(params, {Comment, Otp, Bulk}))[Type := JStr("consolidate")])
  }

  function SubmitSigned(w: Wallet, kind: SubmitKind, signedTx: Fields, params: Json): Result<Submission> {
    var final :- Compose(w, kind, signedTx, params);
    var result :- w.submit(final).OkOr(Network);
    Ok(Submission(final, result))
  }

  // ----- The worker's side -----

  type Wallets = string -> Option<Wallet>

  /** What the worker does with a signed job, up to marking it complete. */
  function HandleSign(wallets: Wallets, body: Option<Fields>, response: Option<AwmResponse>): Result<Submission> {
    var signedTx :- ParseSignedTx(response);
    var context :- ParseContext(body);
    var wallet :- wallets(context.walletId).OkOr(Network);
    SubmitSigned(wallet, context.kind, signedTx, context.params)
  }

  // ----- The handler -----

  datatype Request = Request(
    source: Source, walletId: string, coinName: string,
    pubkey: Option<string>, commonKeychain: Option<string>, params: Fields)

  /** The AWM's sign endpoint. */
  type Signer = SignRequest -> Result<Fields>

  /** The handler's reply; a TSS wallet's transaction is built and sent by the SDK. */
  datatype Reply = Sent(submission: Submission) | Pending(jobId: string) | BySdk(algorithm: Algorithm, params: Fields)

  function PrebuildParams(isUtxo: bool, params: Fields): Fields {
    var memo := if Truth(Field(params, Memo)) then Some(JObj(map[Type := JStr("text"), Value := params[Memo]]))
                else None;
    var p := Put(params, Memo, memo);
    if isUtxo then p[TxFormat := JStr("psbt-lite")] else p
  }

  /** The wallet and its signing keychain, once the request is known to fit them. */
  function Checked(wallets: Wallets, bridge: Bridge, req: Request): Result<(Wallet, Keychain)> {
    var w :- wallets(req.walletId).OkOr(NotFound);
    if !w.advanced then Err(NotFound)
    else
      var keychain :- w.keychain(req.source).OkOr(NotFound);
      if w.tss && bridge.enabled then Err(BadRequest)
      else if w.tss && (!Truthy(req.commonKeychain) || keychain.commonKeychain != req.commonKeychain) then
        Err(BadRequest)
      else if !w.tss && (!Truthy(req.pubkey) || keychain.pub != req.pubkey) then Err(BadRequest)
      else Ok((w, keychain))
  }

  function SendTss(w: Wallet, keychain: Keychain, req: Request): Result<Reply> {
    if keychain.isBackup then Err(BadRequest)
    else
      var params := if Truth(Field(req.params, Type)) then req.params else req.params[Type := JStr("transfer")];
      if !Truthy(keychain.commonKeychain) || w.algorithm.OtherAlgorithm? then Err(BadRequest)
      else Ok(BySdk(w.algorithm, params))
  }

  /** What is to be signed: the verified prebuild, and the keys. */
  function Prepare(w: Wallet, keychain: Keychain, req: Request): Result<SignBody> {
    var params := PrebuildParams(w.isUtxo, req.params);
    var tx :- w.prebuild(params).OkOr(Network);
    var verified :- w.verify(params, tx).OkOr(BadRequest);
    if !verified then Err(BadRequest)
    else
      var pubs :- w.walletPubs;
      BuildSignBody(req.source, keychain.pub, tx, pubs)
  }

  function Context(w: Wallet, req: Request): JobContext {
    JobContext(req.walletId, SendMany, JObj(PrebuildParams(w.isUtxo, req.params)))
  }

  function SendMultisig(bridge: Bridge, signer: Signer, w: Wallet, keychain: Keychain, req: Request): Result<Reply> {
    var body :- Prepare(w, keychain, req);
    var job :- SubmitJob(bridge, SignJob(req.coinName, body, Context(w, req)));
    if job.Some? then Ok(Pending(job.value))
    else
      var signedTx :- signer(ReadSignRequest(SignFields(body)));
      var submission :- SubmitSigned(w, SendMany, signedTx, JObj(PrebuildParams(w.isUtxo, req.params)));
      Ok(Sent(submission))
  }

  /** The specification of the handler. */
  function Handle(wallets: Wallets, bridge: Bridge, signer: Signer, req: Request): Result<Reply> {
    var (w, keychain) :- Checked(wallets, bridge, req);
    if w.tss then SendTss(w, keychain, req) else SendMultisig(bridge, signer, w, keychain, req)
  }

  method HandleSendMany(wallets: Wallets, bridge: Bridge, signer: Signer, req: Request) returns (r: Result<Reply>)
    ensures r == Handle(wallets, bridge, signer, req)
  {
    hide SubmitSigned, Put, ReadSignRequest, SignFields, SignJob, Truth, BuildSignBody;
    var params := req.params;
    var w :- wallets(req.walletId).OkOr(NotFound);
    if !w.advanced {
      return Err(NotFound);
    }
    var keychain :- w.keychain(req.source).OkOr(NotFound);
    if w.tss && bridge.enabled {
      return Err(BadRequest);
    }
    if w.tss {
      if !Truthy(req.commonKeychain) || keychain.commonKeychain != req.commonKeychain {
        return Err(BadRequest);
      }
    } else if !Truthy(req.pubkey) || keychain.pub != req.pubkey {
      return Err(BadRequest);
    }

    if w.tss {
      if keychain.isBackup {
        return Err(BadRequest);
      }
      if !Truth(Field(params, Type)) {
        params := params[Type := JStr("transfer")];
      }
      if !Truthy(keychain.commonKeychain) || w.algorithm.OtherAlgorithm? {
        return Err(BadRequest);
      }
      return Ok(BySdk(w.algorithm, params));
    }

    var prebuildParams := PrebuildParams(w.isUtxo, params);
    var tx :- w.prebuild(prebuildParams).OkOr(Network);
    var verified :- w.verify(prebuildParams, tx).OkOr(BadRequest);
    if !verified {
      return Err(BadRequest);
    }
    var pubs :- w.walletPubs;
    var body :- BuildSignBody(req.source, keychain.pub, tx, pubs);
    var job :- SubmitJob(bridge, SignJob(req.coinName, body, JobContext(req.walletId, SendMany, JObj(prebuildParams))));
    if job.Some? {
      return Ok(Pending(job.value));
    }
    var signedTx :- signer(ReadSignRequest(SignFields(body)));
    var submission :- SubmitSigned(w, SendMany, signedTx, JObj(prebuildParams));
    return Ok(Sent(submission));
  }

  // ----- Async sends what sync sends -----

  /** The bridge with async mode switched off. */
  function Off(bridge: Bridge): Bridge {
    bridge.(enabled := false)
  }

  /** The bridge runs a sign job on the AWM, and the worker picks up the answer. */
  function Finish(wallets: Wallets, signer: Signer, job: SubmitParams): Result<Submission> {
    HandleSign(wallets, Some(job.body), Some(Answered(signer(ReadSignRequest(job.body)))))
  }

  /**
    Async sendMany refines sync sendMany. With async mode on, a multisig request that is
    answered as pending has submitted a job on which the worker, once the AWM has signed it,
    makes exactly the submission of the sync handler: the same parameters and the same
    answer. It makes none exactly when the sync handler fails or the AWM's answer does not
    have the job schema.
   */
  lemma AsyncRefinesSync(wallets: Wallets, bridge: Bridge, signer: Signer, req: Request, id: string, s: Submission)
    requires Handle(wallets, bridge, signer, req) == Ok(Pending(id))
    ensures Checked(wallets, bridge, req).Ok?
    ensures var (w, keychain) := Checked(wallets, bridge, req).value;
            && Prepare(w, keychain, req).Ok?
            && var body := Prepare(w, keychain, req).value;
               var job := SignJob(req.coinName, body, Context(w, req));
               var signed := signer(ReadSignRequest(SignFields(body)));
            && bridge.submit(job) == Some(id)
            && (Finish(wallets, signer, job) == Ok(s) <==>
                  && Handle(wallets, Off(bridge), signer, req) == Ok(Sent(s))
                  && signed.Ok? && SignedSchema(signed.value))
  {
    hide SubmitSigned, PrebuildParams, Prepare, SignFields, ContextFields, ReadSignRequest, SignedSchema;
    hide ParseContext, JobBody;
    var (w, keychain) := Checked(wallets, bridge, req).value;
    var body := Prepare(w, keychain, req).value;
    ParseAfterPack(body, Context(w, req));
    SameRequest(body, Context(w, req));
  }

  /** Every kind of job: the worker submits what was packed, through that kind's handler. */
  lemma WorkerSubmitsWhatWasPacked(wallets: Wallets, signer: Signer, coinName: string, b: SignBody, c: JobContext)
    requires ObjectLike(c.params)
    ensures Finish(wallets, signer, SignJob(coinName, b, c)).ToOption() ==
              match signer(ReadSignRequest(SignFields(b)))
              case Err(_) => None
              case Ok(tx) =>
                if !SignedSchema(tx) || wallets(c.walletId).None? then None
                else SubmitSigned(wallets(c.walletId).value, c.kind, tx, c.params).ToOption()
  {
    hide SubmitSigned, SignFields, ContextFields, ReadSignRequest, SignedSchema, ParseContext, JobBody;
    ParseAfterPack(b, c);
    SameRequest(b, c);
  }
}
