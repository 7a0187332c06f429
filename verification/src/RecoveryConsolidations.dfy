/**
  Recovery of many receive addresses: the SDK builds one unsigned transaction for each, and
  Master Express has them signed one after the other, by one AWM, by two, or by MPC.
 */
module RecoveryConsolidations {
  import opened Prelude
  import opened Json
  import opened AsyncUtils
  import opened Recovery

  datatype Params = Params(
    isMpc: bool, commonKeychain: Option<string>,
    userPub: Option<string>, backupPub: Option<string>, bitgoPub: Option<string>, apiKey: string)

  datatype PubKeys = PubKeys(user: string, backup: string, bitgo: string)

  /** What the SDK answers with: a list under one of two names, or neither. */
  datatype Built = Built(transactions: Option<seq<Fields>>, txRequests: Option<seq<Fields>>)

  /** The deployment: `separate` says that user and backup are two different clients. */
  datatype World = World(
    recoveryMode: bool, separate: bool, bridge: Bridge, coinName: string, coin: Coin,
    user: Awm, backup: Awm,
    build: (Params, PubKeys) -> Option<Built>,
    recoverMpc: (PubKeys, string, Fields) -> Result<Fields>)

  datatype Reply = SignedTxs(txs: seq<Fields>) | JobPending(jobId: string)

  /** MPC wallets use their common keychain in all three places. */
  function PubKeysOf(p: Params): Result<PubKeys> {
    if p.isMpc then
      if Truthy(p.commonKeychain) then
        Ok(PubKeys(p.commonKeychain.value, p.commonKeychain.value, p.commonKeychain.value))
      else Err(Internal)
    else if Truthy(p.userPub) && Truthy(p.backupPub) && Truthy(p.bitgoPub) then
      Ok(PubKeys(p.userPub.value, p.backupPub.value, p.bitgoPub.value))
    else Err(Internal)
  }

  function Transactions(b: Built): Result<seq<Fields>> {
    if b.transactions.Some? then Ok(b.transactions.value) else b.txRequests.OkOr(Internal)
  }

  /** The checks and the build that come before any signature. */
  function Prepare(w: World, p: Params): Result<(PubKeys, seq<Fields>)> {
    if !w.recoveryMode then Err(Internal)
    else if p.isMpc && w.bridge.enabled then Err(BadRequest)
    else
      var pubs :- PubKeysOf(p);
      var built :- w.build(p, pubs).OkOr(Network);
      var txs :- Transactions(built);
      Ok((pubs, txs))
  }

  function BodyOf(pubs: PubKeys, tx: Fields): Body {
    Body(pubs.user, pubs.backup, None, tx, Some(""))
  }

  /** One transaction signed, by whoever signs in this deployment. */
  function SignOne(w: World, p: Params, pubs: PubKeys, tx: Fields): Result<Fields> {
    if p.isMpc then w.recoverMpc(pubs, p.apiKey, tx)
    else if w.separate then Split(w.user, w.backup, w.coin, BodyOf(pubs, tx))
    else Single(w.user, w.coin, BodyOf(pubs, tx))
  }

  /** All of them in order, up to the first that fails. */
  function SignAll(w: World, p: Params, pubs: PubKeys, txs: seq<Fields>): Result<seq<Fields>> {
    if txs == [] then Ok([])
    else
      var first :- SignOne(w, p, pubs, txs[0]);
      var rest :- SignAll(w, p, pubs, txs[1..]);
      Ok([first] + rest)
  }

  /** A successful run has exactly one signed transaction per input, in the same order. */
  lemma {:induction false} SignAllInOrder(w: World, p: Params, pubs: PubKeys, txs: seq<Fields>, signed: seq<Fields>)
    ensures SignAll(w, p, pubs, txs) == Ok(signed) <==>
              |signed| == |txs| && forall i | 0 <= i < |txs| :: SignOne(w, p, pubs, txs[i]) == Ok(signed[i])
  {
    hide SignOne;
    if txs != [] && |signed| == |txs| {
      SignAllInOrder(w, p, pubs, txs[1..], signed[1..]);
      assert signed == [signed[0]] + signed[1..];
      assert forall i | 1 <= i < |txs| :: txs[1..][i - 1] == txs[i] && signed[1..][i - 1] == signed[i];
    } else if txs != [] {
      var rest := SignAll(w, p, pubs, txs[1..]);
      if rest.Ok? {
        SignAllInOrder(w, p, pubs, txs[1..], rest.value);
      }
    }
  }

  /** A failed run fails as its first failing transaction does. */
  lemma {:induction false} SignAllFirstFailure(w: World, p: Params, pubs: PubKeys, txs: seq<Fields>) returns (k: nat)
    requires SignAll(w, p, pubs, txs).Err?
    ensures k < |txs|
    ensures forall i | 0 <= i < k :: SignOne(w, p, pubs, txs[i]).Ok?
    ensures SignOne(w, p, pubs, txs[k]).Err?
    ensures SignOne(w, p, pubs, txs[k]).error == SignAll(w, p, pubs, txs).error
  {
    hide SignOne;
    if SignOne(w, p, pubs, txs[0]).Err? {
      k := 0;
    } else {
      var k' := SignAllFirstFailure(w, p, pubs, txs[1..]);
      k := k' + 1;
      assert forall i | 1 <= i < |txs| :: txs[1..][i - 1] == txs[i];
    }
  }

  /** What the whole run returns, when `done` is signed and `rest` is what remains. */
  function After(done: seq<Fields>, rest: Result<seq<Fields>>): Result<seq<Fields>> {
    match rest
    case Err(e) => Err(e)
    case Ok(signed) => Ok(done + signed)
  }

  lemma AfterOne(w: World, p: Params, pubs: PubKeys, done: seq<Fields>, txs: seq<Fields>)
    requires txs != []
    ensures After(done, SignAll(w, p, pubs, txs)) ==
              match SignOne(w, p, pubs, txs[0])
              case Err(e) => Err(e)
              case Ok(tx) => After(done + [tx], SignAll(w, p, pubs, txs[1..]))
  {
    hide SignOne;
    if SignOne(w, p, pubs, txs[0]).Ok? && SignAll(w, p, pubs, txs[1..]).Ok? {
      var tx, rest := SignOne(w, p, pubs, txs[0]).value, SignAll(w, p, pubs, txs[1..]).value;
      assert done + ([tx] + rest) == done + [tx] + rest;
    }
  }

  /** The specification of the handler. */
  function Handle(w: World, p: Params): Result<Reply> {
    var (pubs, txs) :- Prepare(w, p);
    if w.bridge.enabled && !w.separate then
      if |txs| != 1 then Err(BadRequest)
      else
        var job :- SubmitJob(w.bridge, RecoveryJob(w.coinName, BodyOf(pubs, txs[0])));
        if job.None? then Err(Internal) else Ok(JobPending(job.value))
    else
      var signed :- SignAll(w, p, pubs, txs);
      Ok(SignedTxs(signed))
  }

  method HandleRecoveryConsolidations(w: World, p: Params) returns (r: Result<Reply>)
    ensures r == Handle(w, p)
  {
    if !w.recoveryMode {
      return Err(Internal);
    }
    if p.isMpc && w.bridge.enabled {
      return Err(BadRequest);
    }
    hide SignAll, SignOne;
    var userPub, backupPub, bitgoPub := p.userPub, p.backupPub, p.bitgoPub;
    if p.isMpc {
      if !Truthy(p.commonKeychain) {
        return Err(Internal);
      }
      userPub, backupPub, bitgoPub := p.commonKeychain, p.commonKeychain, p.commonKeychain;
    }
    if !Truthy(userPub) || !Truthy(backupPub) || !Truthy(bitgoPub) {
      return Err(Internal);
    }
    var pubs := PubKeys(userPub.value, backupPub.value, bitgoPub.value);
    var built :- w.build(p, pubs).OkOr(Network);
    var txs: seq<Fields> := [];
    if built.transactions.Some? {
      txs := built.transactions.value;
    } else if built.txRequests.Some? {
      txs := built.txRequests.value;
    } else {
      return Err(Internal);
    }
    assert Prepare(w, p) == Ok((pubs, txs));

    if w.bridge.enabled && !w.separate {
      if |txs| != 1 {
        return Err(BadRequest);
      }
      var job :- SubmitJob(w.bridge, RecoveryJob(w.coinName, BodyOf(pubs, txs[0])));
      return if job.None? then Err(Internal) else Ok(JobPending(job.value));
    }

    hide After;
    var signedTxs: seq<Fields> := [];
    assert txs[0..] == txs;
    assert After([], SignAll(w, p, pubs, txs)) == SignAll(w, p, pubs, txs) by { Unfinished(SignAll(w, p, pubs, txs)); }
    for i := 0 to |txs|
      invariant After(signedTxs, SignAll(w, p, pubs, txs[i..])) == SignAll(w, p, pubs, txs)
    {
      AfterOne(w, p, pubs, signedTxs, txs[i..]);
      assert txs[i..][1..] == txs[i + 1..];
      var signedTx :- SignOne(w, p, pubs, txs[i]);
      signedTxs := signedTxs + [signedTx];
    }
    assert SignAll(w, p, pubs, txs) == Ok(signedTxs) by { Finished(w, p, pubs, signedTxs, txs[|txs|..]); }
    return Ok(SignedTxs(signedTxs));
  }

  lemma Unfinished(r: Result<seq<Fields>>)
    ensures After([], r) == r
  {
    if r.Ok? {
      assert [] + r.value == r.value;
    }
  }

  lemma Finished(w: World, p: Params, pubs: PubKeys, done: seq<Fields>, rest: seq<Fields>)
    requires rest == []
    ensures After(done, SignAll(w, p, pubs, rest)) == Ok(done)
  {
    assert done + [] == done;
  }

  /** The same deployment with its two AWMs replaced by one. */
  ghost predicate Merged(two: World, one: World) {
    && two.separate && !one.separate && !one.bridge.enabled
    && two.recoveryMode == one.recoveryMode && two.coin == one.coin && two.build == one.build
    && SameKeys(two.user, two.backup, one.user)
  }

  /**
    A batch over two AWMs returns a list exactly when the batch over one AWM returns the same
    list and every half-signed transaction on the way has the shape its second server checks.
   */
  lemma BatchSplitEqualsSingle(two: World, one: World, p: Params, signed: seq<Fields>)
    requires Merged(two, one) && !p.isMpc
    ensures Handle(two, p) == Ok(SignedTxs(signed)) <==>
              && Handle(one, p) == Ok(SignedTxs(signed))
              && forall tx | tx in Prepare(one, p).value.1 ::
                   HandsOver(two.user, two.coin, BodyOf(Prepare(one, p).value.0, tx))
  {
    hide Split, Single, HandsOver, SameKeys, SignAll;
    assert Prepare(two, p) == Prepare(one, p);
    if Prepare(one, p).Ok? {
      var (pubs, txs) := Prepare(one, p).value;
      SignAllInOrder(two, p, pubs, txs, signed);
      SignAllInOrder(one, p, pubs, txs, signed);
      if |signed| == |txs| {
        forall i | 0 <= i < |txs|
          ensures SignOne(two, p, pubs, txs[i]) == Ok(signed[i]) <==>
                  SignOne(one, p, pubs, txs[i]) == Ok(signed[i]) && HandsOver(two.user, two.coin, BodyOf(pubs, txs[i]))
        {
          SplitEqualsSingle(two.user, two.backup, one.user, two.coin, BodyOf(pubs, txs[i]), signed[i]);
        }
      }
    }
  }

  // ----- What is signed for whom -----

  /** The keys the caller named, each in its own place; an MPC wallet has one for all three. */
  predicate Named(p: Params, pubs: PubKeys) {
    if p.isMpc then
      Truthy(p.commonKeychain) && pubs == PubKeys(user := p.commonKeychain.value, backup := p.commonKeychain.value,
                                               bitgo := p.commonKeychain.value)
    else
      && Truthy(p.userPub) && Truthy(p.backupPub) && Truthy(p.bitgoPub)
      && pubs == PubKeys(user := p.userPub.value, backup := p.backupPub.value, bitgo := p.bitgoPub.value)
  }

  /** The SDK has built these transactions for these keys. */
  predicate BuiltFor(w: World, p: Params, pubs: PubKeys, txs: seq<Fields>) {
    && w.recoveryMode && !(p.isMpc && w.bridge.enabled) && Named(p, pubs)
    && match w.build(p, pubs)
       case None => false
       case Some(b) => (match b.transactions
                        case Some(ts) => ts == txs
                        case None => b.txRequests == Some(txs))
  }

  lemma PreparedExactly(w: World, p: Params, pubs: PubKeys, txs: seq<Fields>)
    ensures Prepare(w, p) == Ok((pubs, txs)) <==> BuiltFor(w, p, pubs, txs)
  {
    assert PubKeysOf(p) == Ok(pubs) <==> Named(p, pubs);
    hide PubKeysOf, Named;
  }

  /** A receive address's recovery: no BitGo key takes part, and no wallet contract. */
  function RecoveryOf(p: Params, tx: Fields): Body
    requires Truthy(p.userPub) && Truthy(p.backupPub)
  {
    Body(userPub := p.userPub.value, backupPub := p.backupPub.value, bitgoPub := None, unsigned := tx,
         walletContractAddress := Some(""))
  }

  /** One transaction, signed by whoever signs in this deployment, under the keys the caller named. */
  predicate SignedBy(w: World, p: Params, pubs: PubKeys, tx: Fields, signed: Fields)
    requires Named(p, pubs)
  {
    if p.isMpc then w.recoverMpc(pubs, p.apiKey, tx) == Ok(signed)
    else if w.separate then Split(w.user, w.backup, w.coin, RecoveryOf(p, tx)) == Ok(signed)
    else Single(w.user, w.coin, RecoveryOf(p, tx)) == Ok(signed)
  }

  lemma SignedByExactly(w: World, p: Params, pubs: PubKeys, tx: Fields, signed: Fields)
    requires Named(p, pubs)
    ensures SignOne(w, p, pubs, tx) == Ok(signed) <==> SignedBy(w, p, pubs, tx, signed)
  {
    hide Split, Single;
  }

  /** A batch is signed exactly when each transaction the SDK built for the named keys is, in order. */
  lemma BatchExactly(w: World, p: Params, signed: seq<Fields>)
    ensures Handle(w, p) == Ok(SignedTxs(signed)) <==>
              && (w.bridge.enabled ==> w.separate)
              && exists pubs, txs ::
                   && BuiltFor(w, p, pubs, txs) && |signed| == |txs|
                   && forall i | 0 <= i < |txs| :: SignedBy(w, p, pubs, txs[i], signed[i])
  {
    hide SignAll, SignOne, SignedBy, Named;
    forall pubs, txs ensures Prepare(w, p) == Ok((pubs, txs)) <==> BuiltFor(w, p, pubs, txs) {
      PreparedExactly(w, p, pubs, txs);
    }
    hide Prepare;
    if Prepare(w, p).Ok? {
      var (pubs, txs) := Prepare(w, p).value;
      SignAllInOrder(w, p, pubs, txs, signed);
      assert BuiltFor(w, p, pubs, txs);
      forall i | 0 <= i < |txs| && |signed| == |txs|
        ensures SignOne(w, p, pubs, txs[i]) == Ok(signed[i]) <==> SignedBy(w, p, pubs, txs[i], signed[i])
      {
        SignedByExactly(w, p, pubs, txs[i], signed[i]);
      }
    }
  }

  /** A batch becomes a job only when it is one transaction for one AWM, and the job is for that transaction. */
  lemma BatchPends(w: World, p: Params, id: string)
    ensures Handle(w, p) == Ok(JobPending(id)) <==>
              && !p.isMpc && w.bridge.enabled && w.bridge.connected && !w.separate
              && exists pubs, tx ::
                   && BuiltFor(w, p, pubs, [tx])
                   && w.bridge.submit(RecoveryJob(w.coinName, RecoveryOf(p, tx))) == Some(id)
  {
    hide SignAll, RecoveryJob;
    forall pubs, txs ensures Prepare(w, p) == Ok((pubs, txs)) <==> BuiltFor(w, p, pubs, txs) {
      PreparedExactly(w, p, pubs, txs);
    }
    hide Prepare;
    if Prepare(w, p).Ok? {
      var (pubs, txs) := Prepare(w, p).value;
      assert BuiltFor(w, p, pubs, txs);
      if |txs| == 1 {
        assert txs == [txs[0]];
        assert !p.isMpc ==> BodyOf(pubs, txs[0]) == RecoveryOf(p, txs[0]);
      }
    }
  }
}
