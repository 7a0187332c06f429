/**
  What sendMany has signed and submits, told from the request, the wallet and the answers of
  the AWM and the platform: field by field, and exactly when.
 */
module SendManySubmitted {
  import opened Prelude
  import opened Json
  import opened AsyncUtils
  import opened MultisigSign
  import opened SendManyFlow

  // ----- The submission -----

  /** The value that one of the caller's parameters has, if it has one. */
  function Given(params: Json, k: Key): Option<Json> {
    if params.JObj? && k in params.fields then Some(params.fields[k]) else None
  }

  /**
    What is submitted under each key: the signed transaction's field, except where the coin's
    extra parameters, a whitelisted parameter, or the consolidation's own fields go over it.
   */
  function SubmittedField(w: Wallet, kind: SubmitKind, signedTx: Fields, params: Json, k: Key): Option<Json> {
    var over :=
      match kind
      case SendMany =>
        (match w.extraPrebuildParams(params)
         case None => None
         case Some(extra) => Field(extra, k))
      case Accelerate => if k in w.whitelist then Given(params, k) else None
      case ConsolidateUnspents =>
        if k == Type then Some(JStr("consolidate"))
        else if k == Comment || k == Otp || k == Bulk then Given(params, k)
        else None;
    if over.Some? then over else Field(signedTx, k)
  }

  ghost predicate Submits(w: Wallet, kind: SubmitKind, signedTx: Fields, params: Json, s: Submission) {
    && w.submit(s.params) == Some(s.result)
    && (kind == SendMany ==> w.extraPrebuildParams(params).Some?)
    && forall k :: Field(s.params, k) == SubmittedField(w, kind, signedTx, params, k)
  }

  lemma ComposedAt(w: Wallet, kind: SubmitKind, signedTx: Fields, params: Json, k: Key)
    requires Compose(w, kind, signedTx, params).Ok?
    ensures Field(Compose(w, kind, signedTx, params).value, k) == SubmittedField(w, kind, signedTx, params, k)
  {
    hide Pick, Field, Given;
    match kind
    case SendMany => OverAt(signedTx, w.extraPrebuildParams(params).value, k);
    case Accelerate =>
      OverAt(signedTx, Pick(params, w.whitelist), k);
      PickAt(params, w.whitelist, k);
    case ConsolidateUnspents =>
      var own := {Comment, Otp, Bulk};
      OverAt(signedTx, Pick(params, own), k);
      PickAt(params, own, k);
      PutAt(signedTx + Pick(params, own), Type, Some(JStr("consolidate")), k);
  }

  lemma OverAt(m: Fields, over: Fields, k: Key)
    ensures Field(m + over, k) == if Field(over, k).Some? then Field(over, k) else Field(m, k)
  {
  }

  lemma PickAt(params: Json, keys: set<Key>, k: Key)
    ensures Field(Pick(params, keys), k) == if k in keys then Given(params, k) else None
  {
  }

  /** A submission is made exactly when it has these fields and the platform answers it. */
  lemma SubmitsExactly(w: Wallet, kind: SubmitKind, signedTx: Fields, params: Json, s: Submission)
    ensures SubmitSigned(w, kind, signedTx, params) == Ok(s) <==> Submits(w, kind, signedTx, params, s)
  {
    assert Compose(w, kind, signedTx, params).Ok? <==> (kind == SendMany ==> w.extraPrebuildParams(params).Some?);
    hide SubmittedField, Compose;
    if Compose(w, kind, signedTx, params).Ok? {
      var final := Compose(w, kind, signedTx, params).value;
      forall k ensures Field(final, k) == SubmittedField(w, kind, signedTx, params, k) {
        ComposedAt(w, kind, signedTx, params, k);
      }
      if Submits(w, kind, signedTx, params, s) {
        SameFields(final, s.params);
      }
    }
  }

  // ----- What is built -----

  /** The parameters a transaction is built and submitted with: the caller's, with two exceptions. */
  function BuildField(isUtxo: bool, params: Fields, k: Key): Option<Json> {
    match k
    case Memo =>
      if Memo !in params || params[Memo] in {JNull, JBool(false), JNum(0.0), JStr("")} then None
      else Some(JObj(map[Type := JStr("text"), Value := params[Memo]]))
    case TxFormat => if isUtxo then Some(JStr("psbt-lite")) else Field(params, TxFormat)
    case _ => Field(params, k)
  }

  ghost predicate BuiltWith(isUtxo: bool, params: Fields, built: Fields) {
    forall k :: Field(built, k) == BuildField(isUtxo, params, k)
  }

  lemma BuildFieldAt(isUtxo: bool, params: Fields, k: Key)
    ensures Field(PrebuildParams(isUtxo, params), k) == BuildField(isUtxo, params, k)
  {
    FalseValues(Field(params, Memo));
    hide Truth, Put;
    var memo := if Truth(Field(params, Memo)) then Some(JObj(map[Type := JStr("text"), Value := params[Memo]]))
                else None;
    PutAt(params, Memo, memo, k);
  }

  lemma BuiltWithIs(isUtxo: bool, params: Fields, built: Fields)
    ensures BuiltWith(isUtxo, params, built) <==> built == PrebuildParams(isUtxo, params)
  {
    hide BuildField, PrebuildParams;
    forall k ensures Field(PrebuildParams(isUtxo, params), k) == BuildField(isUtxo, params, k) {
      BuildFieldAt(isUtxo, params, k);
    }
    if BuiltWith(isUtxo, params, built) {
      SameFields(built, PrebuildParams(isUtxo, params));
    }
  }

  // ----- What the AWM is asked to sign -----

  function NameOf(source: Source): Json {
    match source
    case User => JStr("user")
    case Backup => JStr("backup")
  }

  /** The keys as a JSON array, in their order; absent when the wallet has none to give. */
  predicate Lists(x: Option<Json>, pubs: Option<seq<string>>) {
    match pubs
    case None => x == None
    case Some(ps) =>
      && x.Some? && x.value.JArr? && |x.value.items| == |ps|
      && forall i | 0 <= i < |ps| :: x.value.items[i] == JStr(ps[i])
  }

  predicate AsksFor(q: SignRequest, source: Source, pub: string, tx: Json, pubs: Option<seq<string>>) {
    && q.source == Some(NameOf(source)) && q.pub == Some(JStr(pub)) && q.txPrebuild == Some(tx)
    && Lists(q.walletPubs, pubs)
  }

  lemma ListsIsOne(x: Option<Json>, y: Option<Json>, pubs: Option<seq<string>>)
    requires Lists(x, pubs) && Lists(y, pubs)
    ensures x == y
  {
    if pubs.Some? {
      assert x.value.items == y.value.items;
    }
  }

  lemma AsksForIs(q: SignRequest, b: SignBody)
    ensures AsksFor(q, b.source, b.pub, b.txPrebuild, b.walletPubs) <==> q == ReadSignRequest(SignFields(b))
  {
    var asked := ReadSignRequest(SignFields(b));
    assert AsksFor(asked, b.source, b.pub, b.txPrebuild, b.walletPubs);
    if AsksFor(q, b.source, b.pub, b.txPrebuild, b.walletPubs) {
      ListsIsOne(q.walletPubs, asked.walletPubs, b.walletPubs);
    }
  }

  // ----- The guards -----

  /** The wallet can be signed for, and the caller named the key it is signed with. */
  predicate Fits(wallets: Wallets, bridge: Bridge, req: Request) {
    var w := wallets(req.walletId);
    && w.Some? && w.value.advanced
    && w.value.keychain(req.source).Some?
    && var keychain := w.value.keychain(req.source).value;
       if w.value.tss then
         !bridge.enabled && Truthy(req.commonKeychain) && keychain.commonKeychain == req.commonKeychain
       else Truthy(req.pubkey) && keychain.pub == req.pubkey
  }

  lemma FitsIs(wallets: Wallets, bridge: Bridge, req: Request)
    ensures Checked(wallets, bridge, req).Ok? <==> Fits(wallets, bridge, req)
    ensures Fits(wallets, bridge, req) ==>
              Checked(wallets, bridge, req).value ==
                (wallets(req.walletId).value, wallets(req.walletId).value.keychain(req.source).value)
  {
  }

  /** Who is not found, and who is refused. */
  lemma Refusals(wallets: Wallets, bridge: Bridge, signer: Signer, req: Request)
    ensures var w := wallets(req.walletId);
            !Fits(wallets, bridge, req) ==>
              Handle(wallets, bridge, signer, req) ==
                if w.None? || !w.value.advanced || w.value.keychain(req.source).None? then Err(NotFound)
                else Err(BadRequest)
  {
  }

  // ----- A TSS wallet -----

  /** The caller's parameters with a type, which is a transfer unless the caller says otherwise. */
  ghost predicate Typed(params: Fields, typed: Fields) {
    forall k :: Field(typed, k) == TypedField(params, k)
  }

  function TypedField(params: Fields, k: Key): Option<Json> {
    if k == Type && (Type !in params || params[Type] in {JNull, JBool(false), JNum(0.0), JStr("")})
    then Some(JStr("transfer")) else Field(params, k)
  }

  lemma TypedIs(params: Fields, typed: Fields)
    ensures Typed(params, typed) <==>
            typed == if Truth(Field(params, Type)) then params else params[Type := JStr("transfer")]
  {
    FalseValues(Field(params, Type));
    hide Truth;
    var t := if Truth(Field(params, Type)) then params else params[Type := JStr("transfer")];
    assert forall k :: Field(t, k) == TypedField(params, k);
    if Typed(params, typed) {
      hide TypedField;
      SameFields(typed, t);
    }
  }

  /** A TSS wallet is sent from by the SDK, for the user's key only. */
  ghost predicate LeftToSdk(wallets: Wallets, bridge: Bridge, req: Request, algorithm: Algorithm, params: Fields) {
    && Fits(wallets, bridge, req) && wallets(req.walletId).value.tss
    && !wallets(req.walletId).value.keychain(req.source).value.isBackup
    && algorithm == wallets(req.walletId).value.algorithm && algorithm in {Ecdsa, Eddsa}
    && Typed(req.params, params)
  }

  lemma LeftToSdkExactly(wallets: Wallets, bridge: Bridge, signer: Signer, req: Request,
                         algorithm: Algorithm, params: Fields)
    ensures Handle(wallets, bridge, signer, req) == Ok(BySdk(algorithm, params)) <==>
              LeftToSdk(wallets, bridge, req, algorithm, params)
  {
    FitsIs(wallets, bridge, req);
    TypedIs(req.params, params);
    hide Checked, Truth, Prepare, SubmitSigned, SubmitJob, Typed, Field;
  }

  // ----- A multisig wallet -----

  /** The transaction is built with these parameters and stands up to the local check. */
  ghost predicate Built(w: Wallet, req: Request, params: Fields, tx: Json) {
    && BuiltWith(w.isUtxo, req.params, params)
    && w.prebuild(params) == Some(tx) && w.verify(params, tx) == Some(true)
    && w.walletPubs.Ok?
  }

  lemma PreparedExactly(w: Wallet, keychain: Keychain, req: Request)
    requires Truthy(keychain.pub)
    ensures var r := Prepare(w, keychain, req);
            var params := PrebuildParams(w.isUtxo, req.params);
            && (r.Ok? <==> exists tx :: Built(w, req, params, tx))
            && forall tx | Built(w, req, params, tx) ::
                 r == Ok(SignBody(req.source, keychain.pub.value, tx, w.walletPubs.value))
  {
    var params := PrebuildParams(w.isUtxo, req.params);
    BuiltWithIs(w.isUtxo, req.params, params);
    hide PrebuildParams, BuiltWith;
    if Prepare(w, keychain, req).Ok? {
      assert Built(w, req, params, w.prebuild(params).value);
    }
  }

  /** The AWM signs what was built, with the wallet's keys, and the signed transaction is submitted. */
  ghost predicate SendsNow(wallets: Wallets, bridge: Bridge, signer: Signer, req: Request, s: Submission) {
    && Fits(wallets, bridge, req) && !bridge.enabled
    && var w := wallets(req.walletId).value;
    && !w.tss
    && exists params: Fields, tx: Json, q: SignRequest, signed: Fields ::
         && Built(w, req, params, tx)
         && AsksFor(q, req.source, req.pubkey.value, tx, w.walletPubs.value)
         && signer(q) == Ok(signed)
         && Submits(w, SendMany, signed, JObj(params), s)
  }

  /** What a synchronous sendMany on a multisig wallet submits. */
  lemma SendsExactly(wallets: Wallets, bridge: Bridge, signer: Signer, req: Request, s: Submission)
    ensures Handle(wallets, bridge, signer, req) == Ok(Sent(s)) <==> SendsNow(wallets, bridge, signer, req, s)
  {
    hide SubmitSigned, Prepare, ReadSignRequest, SignFields, BuiltWith, AsksFor, Submits, Checked, PrebuildParams;
    hide SignJob;
    FitsIs(wallets, bridge, req);
    if Fits(wallets, bridge, req) && !bridge.enabled && !wallets(req.walletId).value.tss {
      var w := wallets(req.walletId).value;
      var keychain := w.keychain(req.source).value;
      var params := PrebuildParams(w.isUtxo, req.params);
      PreparedExactly(w, keychain, req);
      if tx :| Built(w, req, params, tx) {
        var body := SignBody(req.source, req.pubkey.value, tx, w.walletPubs.value);
        var q := ReadSignRequest(SignFields(body));
        AsksForIs(q, body);
        if signer(q).Ok? {
          SubmitsExactly(w, SendMany, signer(q).value, JObj(params), s);
          assert Handle(wallets, bridge, signer, req) == Ok(Sent(s)) <==>
                 Submits(w, SendMany, signer(q).value, JObj(params), s);
          if Submits(w, SendMany, signer(q).value, JObj(params), s) {
            assert SendsNow(wallets, bridge, signer, req, s);
          }
        } else {
          assert Handle(wallets, bridge, signer, req).Err?;
        }
      }
      if SendsNow(wallets, bridge, signer, req, s) {
        var params', tx, q, signed :| Built(w, req, params', tx)
                                      && AsksFor(q, req.source, req.pubkey.value, tx, w.walletPubs.value)
                                      && signer(q) == Ok(signed) && Submits(w, SendMany, signed, JObj(params'), s);
        BuiltIsOne(w, req, params', tx);
        AsksForIs(q, SignBody(req.source, req.pubkey.value, tx, w.walletPubs.value));
        SubmitsExactly(w, SendMany, signed, JObj(params), s);
      }
    }
  }

  lemma BuiltIsOne(w: Wallet, req: Request, params: Fields, tx: Json)
    requires Built(w, req, params, tx)
    ensures params == PrebuildParams(w.isUtxo, req.params) && w.walletPubs.Ok?
  {
    BuiltWithIs(w.isUtxo, req.params, params);
  }

  // ----- A job -----

  /** A sign job goes to the AWM's own route, for one key, with the request and what follows it. */
  ghost predicate JobFor(job: SubmitParams, coinName: string, source: Source, pub: string, tx: Json,
                         pubs: Option<seq<string>>, c: JobContext) {
    && job.path == "/api/" + coinName + "/multisig/sign"
    && job.operation == Operation.MultisigSign && job.sources == [source]
    && AsksFor(SignRequest(Field(job.body, SourceField), Field(job.body, Pub), Field(job.body, TxPrebuild),
                           Field(job.body, WalletPubs)), source, pub, tx, pubs)
    && Field(job.body, WalletId) == Some(JStr(c.walletId))
    && Field(job.body, WpSubmitKind) == Some(JStr(match c.kind
                                                  case SendMany => "sendMany"
                                                  case Accelerate => "accelerate"
                                                  case ConsolidateUnspents => "consolidateUnspents"))
    && Field(job.body, WpSubmitParams) == Some(c.params)
    && job.body.Keys <= {SourceField, Pub, TxPrebuild, WalletPubs, WalletId, WpSubmitKind, WpSubmitParams}
  }

  lemma JobForIs(coinName: string, b: SignBody, c: JobContext)
    ensures JobFor(SignJob(coinName, b, c), coinName, b.source, b.pub, b.txPrebuild, b.walletPubs, c)
  {
    AsksForIs(ReadSignRequest(SignFields(b)), b);
    SameRequest(b, c);
    assert JobBody(b, c).Keys == SignFields(b).Keys + ContextFields(c).Keys;
    hide AsksFor;
  }

  /** With async mode on, a multisig request ends with a job, exactly when what it signs could be built. */
  lemma PendsExactly(wallets: Wallets, bridge: Bridge, signer: Signer, req: Request, id: string)
    ensures Handle(wallets, bridge, signer, req) == Ok(Pending(id)) <==>
              && Fits(wallets, bridge, req) && bridge.enabled && bridge.connected
              && var w := wallets(req.walletId).value;
              && !w.tss
              && exists params: Fields, tx: Json ::
                   && Built(w, req, params, tx)
                   && var job := SignJob(req.coinName, SignBody(req.source, req.pubkey.value, tx, w.walletPubs.value),
                                         JobContext(req.walletId, SendMany, JObj(params)));
                   && JobFor(job, req.coinName, req.source, req.pubkey.value, tx, w.walletPubs.value,
                             JobContext(req.walletId, SendMany, JObj(params)))
                   && bridge.submit(job) == Some(id)
  {
    hide SubmitSigned, Prepare, ReadSignRequest, SignFields, BuiltWith, Checked, PrebuildParams, SignJob, JobFor;
    FitsIs(wallets, bridge, req);
    if Fits(wallets, bridge, req) && !wallets(req.walletId).value.tss {
      var w := wallets(req.walletId).value;
      var keychain := w.keychain(req.source).value;
      var params := PrebuildParams(w.isUtxo, req.params);
      PreparedExactly(w, keychain, req);
      forall params, tx | Built(w, req, params, tx)
        ensures JobFor(SignJob(req.coinName, SignBody(req.source, req.pubkey.value, tx, w.walletPubs.value),
                               JobContext(req.walletId, SendMany, JObj(params))),
                       req.coinName, req.source, req.pubkey.value, tx, w.walletPubs.value,
                       JobContext(req.walletId, SendMany, JObj(params)))
        ensures params == PrebuildParams(w.isUtxo, req.params)
      {
        BuiltIsOne(w, req, params, tx);
        JobForIs(req.coinName, SignBody(req.source, req.pubkey.value, tx, w.walletPubs.value),
                 JobContext(req.walletId, SendMany, JObj(params)));
      }
    }
  }

  // ----- The worker -----

  /** The AWM's answer as the bridge kept it is that of a handler that did not fail. */
  predicate Succeeded(response: Option<AwmResponse>, body: Fields) {
    && response.Some? && response.value.status < 400
    && response.value.error in {None, Some("")}
    && response.value.body == body
  }

  /** An answer's body is used exactly when the answer is a success. */
  lemma ParsedExactly(response: Option<AwmResponse>, body: Fields)
    ensures ParseAwmResponseBody(response) == Ok(body) <==> Succeeded(response, body)
  {
  }

  /** A job's record names the wallet, one of the three kinds, and an object of parameters. */
  predicate Holds(m: Fields, c: JobContext) {
    && Field(m, WalletId) == Some(JStr(c.walletId))
    && Field(m, WpSubmitKind) == Some(JStr(match c.kind
                                           case SendMany => "sendMany"
                                           case Accelerate => "accelerate"
                                           case ConsolidateUnspents => "consolidateUnspents"))
    && Field(m, WpSubmitParams) == Some(c.params) && (c.params.JObj? || c.params.JArr?)
  }

  ghost predicate WorkerSends(wallets: Wallets, body: Option<Fields>, response: Option<AwmResponse>, s: Submission) {
    exists tx: Fields, c: JobContext ::
      && Succeeded(response, tx) && SignedSchema(tx)
      && body.Some? && Holds(body.value, c)
      && wallets(c.walletId).Some?
      && Submits(wallets(c.walletId).value, c.kind, tx, c.params, s)
  }

  /** What the worker submits for a sign job, whatever stands in its record. */
  lemma WorkerSendsExactly(wallets: Wallets, body: Option<Fields>, response: Option<AwmResponse>, s: Submission)
    ensures HandleSign(wallets, body, response) == Ok(s) <==> WorkerSends(wallets, body, response, s)
  {
    hide SubmitSigned, Submits, ParseContext, SignedSchema, ParseAwmResponseBody;
    if HandleSign(wallets, body, response) == Ok(s) {
      var tx, c := ParseAwmResponseBody(response).value, ParseContext(body).value;
      ParsedExactly(response, tx);
      HoldsIs(body, c);
      SubmitsExactly(wallets(c.walletId).value, c.kind, tx, c.params, s);
    }
    if tx, c :| && Succeeded(response, tx) && SignedSchema(tx) && body.Some? && Holds(body.value, c)
                && wallets(c.walletId).Some? && Submits(wallets(c.walletId).value, c.kind, tx, c.params, s) {
      ParsedExactly(response, tx);
      HoldsIs(body, c);
      SubmitsExactly(wallets(c.walletId).value, c.kind, tx, c.params, s);
    }
  }

  lemma HoldsIs(body: Option<Fields>, c: JobContext)
    ensures ParseContext(body) == Ok(c) <==> body.Some? && Holds(body.value, c)
  {
    if body.Some? {
      ParsesWhatItHolds(body.value, c);
      hide ParseContext;
      assert ContextFields(c).Keys == {WalletId, WpSubmitKind, WpSubmitParams};
    }
  }
}
