/**
  The two calls of a recovery that two servers sign: what each server answers, told from the
  request and its own key alone, whatever half the second is handed.
 */
module RecoverySteps {
  import opened Prelude
  import opened Json
  import opened RecoveryUtils
  import opened Recovery
  import opened RecoverySigned

  // ----- UTXO -----

  /** The user's server signs first, and answers with nothing but that signature. */
  lemma UtxoUserStep(awm: Awm, coin: Coin, body: Body, half: Fields)
    requires !External(awm, coin) && !coin.isEvm
    ensures Call(awm, coin, Request(body, Some(User), None)) == Ok(half) <==>
              && awm.recoveryMode && coin.isUtxo
              && Truthy(awm.getKey(body.userPub, User)) && Truthy(body.bitgoPub)
              && {TxInfo, TxHex, FeeInfo} <= body.unsigned.Keys && HasTxHex(half)
              && exists a :: UtxoAsk(a, false, awm.getKey(body.userPub, User).value, body, Field(body.unsigned, TxHex))
                             && coin.signTransaction(a) == Ok(half)
  {
    hide UtxoAsk, UtxoArgs, HasTxHex, Respond, UtxoHalf, UtxoFull;
    Responds(half);
    if Truthy(awm.getKey(body.userPub, User)) && Truthy(body.bitgoPub) {
      UtxoAskedOnce(coin, false, awm.getKey(body.userPub, User).value, body, Field(body.unsigned, TxHex), half);
      var r := UtxoHalf(coin, awm.getKey(body.userPub, User).value, body, body.bitgoPub.value);
      if r.Ok? {
        Responds(r.value);
      }
    }
  }

  /** The backup's server signs last, over the half's transaction. */
  lemma UtxoBackupStep(awm: Awm, coin: Coin, body: Body, half: Json, tx: Fields)
    requires !External(awm, coin) && !coin.isEvm
    ensures Call(awm, coin, Request(body, Some(Backup), Some(half))) == Ok(tx) <==>
              && awm.recoveryMode && coin.isUtxo
              && Truthy(awm.getKey(body.backupPub, Backup)) && Truthy(body.bitgoPub)
              && TopHex(Some(half)) && Field(body.unsigned, TxInfo) !in FALSY && HasTxHex(tx)
              && exists b :: UtxoAsk(b, true, awm.getKey(body.backupPub, Backup).value, body, Field(half.fields, TxHex))
                             && coin.signTransaction(b) == Ok(tx)
  {
    FalseValues(Field(body.unsigned, TxInfo));
    FalseValues(Some(half));
    hide UtxoAsk, UtxoArgs, HasTxHex, Respond, UtxoHalf, UtxoFull, Truth;
    Responds(tx);
    if Truthy(awm.getKey(body.backupPub, Backup)) && Truthy(body.bitgoPub) && TopHex(Some(half)) {
      var backupPrv, txHex := awm.getKey(body.backupPub, Backup).value, Field(half.fields, TxHex);
      UtxoAskedOnce(coin, true, backupPrv, body, txHex, tx);
      var r := UtxoFull(coin, backupPrv, body, body.bitgoPub.value, txHex);
      if r.Ok? {
        Responds(r.value);
      }
    }
  }

  /** One UTXO signature. */
  lemma UtxoAskedOnce(coin: Coin, last: bool, prv: string, body: Body, txHex: Option<Json>, tx: Fields)
    requires body.bitgoPub.Some? && (!last ==> txHex == Field(body.unsigned, TxHex))
    ensures (if last then UtxoFull(coin, prv, body, body.bitgoPub.value, txHex)
             else UtxoHalf(coin, prv, body, body.bitgoPub.value)) == Ok(tx) <==>
              exists a :: UtxoAsk(a, last, prv, body, txHex) && coin.signTransaction(a) == Ok(tx)
  {
    hide UtxoAsk, UtxoArgs, UtxoHalf, UtxoFull;
    UtxoArgsAsk(last, prv, body, txHex);
    UtxoAsks(coin, prv, body, txHex);
    if a :| UtxoAsk(a, last, prv, body, txHex) && coin.signTransaction(a) == Ok(tx) {
      UtxoAskIsOne(a, UtxoArgs(last, prv, body, txHex), last, prv, body, txHex);
    }
  }

  // ----- External signing -----

  lemma ExternalUserStep(awm: Awm, coin: Coin, body: Body, half: Fields)
    requires External(awm, coin)
    ensures Call(awm, coin, Request(body, Some(User), None)) == Ok(half) <==>
              && awm.recoveryMode
              && exists signature :: awm.sign(body.userPub, User, Field(body.unsigned, TxHex)) == Some(signature)
                                     && signature != "" && half == map[TxHex := JStr(signature)]
  {
  }

  lemma ExternalBackupStep(awm: Awm, coin: Coin, body: Body, half: Json, tx: Fields)
    requires External(awm, coin)
    ensures Call(awm, coin, Request(body, Some(Backup), Some(half))) == Ok(tx) <==>
              && awm.recoveryMode
              && half.JObj? && Field(half.fields, TxHex) !in FALSY && (coin.isEvm ==> TopHex(Some(half)))
              && exists signature :: awm.sign(body.backupPub, Backup, Field(half.fields, TxHex)) == Some(signature)
                                     && signature != "" && tx == map[TxHex := JStr(signature)]
  {
    FalseValues(Some(half));
    FalseValues(Optional(Some(half), TxHex));
    hide Truth;
  }

  // ----- EVM -----

  /** The user's server signs first, and answers with that signature decorated. */
  lemma EthUserStep(awm: Awm, coin: Coin, body: Body, half: Fields)
    requires !External(awm, coin) && coin.isEvm
    ensures Call(awm, coin, Request(body, Some(User), None)) == Ok(half) <==>
              && awm.recoveryMode && coin.isEthLike && Truthy(awm.getKey(body.userPub, User))
              && HasRecipients(body) && HasTxHex(half)
              && exists a, signed ::
                   && EthUserAsk(a, awm.env, awm.getKey(body.userPub, User).value, body)
                   && coin.signTransaction(a) == Ok(signed) && Decorates(awm.env, body, signed, half)
  {
    hide EthUserAsk, HasTxHex, Respond, HasRecipients, NoRecipients, EthUserHalf, Decorates;
    HasRecipientsIs(body);
    Responds(half);
    if Truthy(awm.getKey(body.userPub, User)) {
      var prv := awm.getKey(body.userPub, User).value;
      EthHalfAsked(coin, awm.env, prv, body, half);
      var r := EthUserHalf(coin, awm.env, prv, body);
      if r.Ok? {
        Responds(r.value);
      }
    }
  }

  /** The half as the user's server hands it over: the signed transaction with what was decided about it. */
  ghost predicate Decorates(env: EnvName, body: Body, signed: Fields, half: Fields) {
    forall k :: Field(half, k) ==
      ExtraField(env, signed, body.unsigned, false, Field(body.unsigned, ReplayProtectionOptions), k)
  }

  lemma DecoratesIs(env: EnvName, body: Body, signed: Fields, half: Fields)
    ensures Decorates(env, body, signed, half) <==>
            half == Extras(env, signed, body.unsigned, false, Field(body.unsigned, ReplayProtectionOptions))
  {
    hide Extras, ExtraField;
    var given := Field(body.unsigned, ReplayProtectionOptions);
    forall k ensures Field(Extras(env, signed, body.unsigned, false, given), k) ==
                     ExtraField(env, signed, body.unsigned, false, given, k)
    {
      ExtrasAt(env, signed, body.unsigned, false, given, k);
    }
    if Decorates(env, body, signed, half) {
      SameFields(half, Extras(env, signed, body.unsigned, false, given));
    }
  }

  lemma EthHalfAsked(coin: Coin, env: EnvName, prv: string, body: Body, half: Fields)
    ensures EthUserHalf(coin, env, prv, body) == Ok(half) <==>
              exists a, signed ::
                && EthUserAsk(a, env, prv, body) && coin.signTransaction(a) == Ok(signed)
                && Decorates(env, body, signed, half)
  {
    hide EthUserAsk, EthUserArgs, Extras, Decorates;
    var a := EthUserArgs(env, prv, body);
    UserAsked(env, prv, body);
    if coin.signTransaction(a).Ok? {
      DecoratesIs(env, body, coin.signTransaction(a).value, half);
    }
    if a', signed :| EthUserAsk(a', env, prv, body) && coin.signTransaction(a') == Ok(signed)
                     && Decorates(env, body, signed, half) {
      UserAskIsOne(a, a', env, prv, body);
    }
  }

  /** The transaction the backup's key signs, on any half: its nested part, priced and protected anew. */
  function CompletedField(env: EnvName, half: Fields, k: Key): Option<Json> {
    match k
    case TxHex => Optional(Field(half, HalfSigned), TxHex)
    case Recipients => Some(OrEmpty(Optional(Field(half, HalfSigned), Recipients)))
    case GasPrice => Some(JNum(20000000000.0))
    case GasLimit => Some(JNum(200000.0))
    case Eip1559 => Some(FEES)
    case ReplayProtectionOptions => Some(InForce(env, Field(half, ReplayProtectionOptions)))
    case _ => Field(half, k)
  }

  ghost predicate EthCompletes(args: Fields, env: EnvName, prv: string, body: Body, half: Fields) {
    && (forall k | k != TxPrebuild :: Field(args, k) == BackupField(prv, body, half, k))
    && IsObject(Field(args, TxPrebuild))
    && forall k :: Field(args[TxPrebuild].fields, k) == CompletedField(env, half, k)
  }

  lemma CompletedFieldAt(env: EnvName, half: Fields, k: Key)
    ensures Field(EthBackupPrebuild(env, half), k) == CompletedField(env, half, k)
  {
    ReplayProtectionInForce(env, Field(half, ReplayProtectionOptions));
    hide EthBackupPrebuild, GetReplayProtectionOptions, InForce, OrEmpty, Optional;
    PrebuildPuts(env, half, k);
  }

  lemma Completes(env: EnvName, prv: string, body: Body, half: Fields)
    ensures EthCompletes(EthBackupArgs(env, prv, body, half), env, prv, body, half)
  {
    hide EthBackupArgs, EthBackupPrebuild, BackupField, CompletedField;
    BackupPrebuild(env, prv, body, half);
    forall k | k != TxPrebuild
      ensures Field(EthBackupArgs(env, prv, body, half), k) == BackupField(prv, body, half, k)
    {
      BackupArgsAt(env, prv, body, half, half, k);
    }
    forall k ensures Field(EthBackupPrebuild(env, half), k) == CompletedField(env, half, k) {
      CompletedFieldAt(env, half, k);
    }
  }

  lemma CompletesIsOne(a: Fields, b: Fields, env: EnvName, prv: string, body: Body, half: Fields)
    requires EthCompletes(a, env, prv, body, half) && EthCompletes(b, env, prv, body, half)
    ensures a == b
  {
    hide BackupField, CompletedField;
    AskIsOne(a, b);
  }

  /** The backup's server signs last, over whatever half of the EVM shape it is handed. */
  lemma EthBackupStep(awm: Awm, coin: Coin, body: Body, half: Json, tx: Fields)
    requires !External(awm, coin) && coin.isEvm
    ensures Call(awm, coin, Request(body, Some(Backup), Some(half))) == Ok(tx) <==>
              && awm.recoveryMode && coin.isEthLike && Truthy(awm.getKey(body.backupPub, Backup))
              && NestedHex(Some(half)) && HasTxHex(tx)
              && exists b :: EthCompletes(b, awm.env, awm.getKey(body.backupPub, Backup).value, body, half.fields)
                             && coin.signTransaction(b) == Ok(tx)
  {
    FalseValues(Some(half));
    hide EthCompletes, HasTxHex, Respond, EthBackupArgs, Truth;
    Responds(tx);
    if Truthy(awm.getKey(body.backupPub, Backup)) && NestedHex(Some(half)) {
      var prv := awm.getKey(body.backupPub, Backup).value;
      var args := EthBackupArgs(awm.env, prv, body, half.fields);
      Completes(awm.env, prv, body, half.fields);
      var r := coin.signTransaction(args);
      if r.Ok? {
        Responds(r.value);
      }
      if b :| EthCompletes(b, awm.env, prv, body, half.fields) && coin.signTransaction(b) == Ok(tx) {
        CompletesIsOne(args, b, awm.env, prv, body, half.fields);
      }
    }
  }
}
