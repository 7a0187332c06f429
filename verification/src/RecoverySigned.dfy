/**
  What a recovery has signed, told from the request and the key provider alone: for each kind
  of coin, what the user's key and the backup's key are asked to sign, and when that gives a
  signed transaction.
 */
module RecoverySigned {
  import opened Prelude
  import opened Json
  import opened RecoveryUtils
  import opened Recovery

  /** `x ?? []`. */
  function OrEmpty(x: Option<Json>): Json {
    if x.Some? && x.value != JNull then x.value else JArr([])
  }

  /** A transaction at the top of an object, as UTXO coins have it. */
  predicate TopHex(x: Option<Json>) {
    x.Some? && x.value.JObj? && TxHex in x.value.fields && x.value.fields[TxHex].JStr?
  }

  /** A transaction nested under `halfSigned`, as EVM coins have it. */
  predicate NestedHex(x: Option<Json>) {
    x.Some? && x.value.JObj? && HalfSigned in x.value.fields && TopHex(Some(x.value.fields[HalfSigned]))
  }

  /** A body that the caller is given. */
  predicate HasTxHex(tx: Fields) {
    TopHex(Some(JObj(tx))) || NestedHex(Some(JObj(tx)))
  }

  lemma Responds(tx: Fields)
    ensures Respond(tx) == if HasTxHex(tx) then Ok(tx) else Err(Internal)
  {
  }

  predicate HasKeys(awm: Awm, body: Body) {
    && Truthy(awm.getKey(body.userPub, User))
    && Truthy(awm.getKey(body.backupPub, Backup))
  }

  // ----- UTXO -----

  /** The arguments of a UTXO signature: these fields and no others. */
  predicate UtxoAsk(args: Fields, last: bool, prv: string, body: Body, txHex: Option<Json>) {
    && body.bitgoPub.Some?
    && args.Keys == {IsLastSignature, Prv, Key.Pubs, TxPrebuild} +
                    (if last then {} else {AllowNonSegwitSigningWithoutPrevTx})
    && args[IsLastSignature] == JBool(last) && args[Prv] == JStr(prv)
    && args[Key.Pubs] == JArr([JStr(body.userPub), JStr(body.backupPub), JStr(body.bitgoPub.value)])
    && (last || args[AllowNonSegwitSigningWithoutPrevTx] == JBool(true))
    && args[TxPrebuild].JObj? && args[TxPrebuild].fields.Keys <= {TxHex, TxInfo}
    && Field(args[TxPrebuild].fields, TxHex) == txHex
    && Field(args[TxPrebuild].fields, TxInfo) == Field(body.unsigned, TxInfo)
  }

  lemma UtxoAskIsOne(a: Fields, b: Fields, last: bool, prv: string, body: Body, txHex: Option<Json>)
    requires UtxoAsk(a, last, prv, body, txHex) && UtxoAsk(b, last, prv, body, txHex)
    ensures a == b
  {
    var p, q := a[TxPrebuild].fields, b[TxPrebuild].fields;
    forall k ensures Field(p, k) == Field(q, k) {
    }
    SameFields(p, q);
  }

  function UtxoArgs(last: bool, prv: string, body: Body, txHex: Option<Json>): Fields
    requires body.bitgoPub.Some?
  {
    var args: Fields :=
      map[IsLastSignature := JBool(last), Prv := JStr(prv), Key.Pubs := UtxoPubs(body, body.bitgoPub.value),
          TxPrebuild := UtxoPrebuild(txHex, Field(body.unsigned, TxInfo))];
    if last then args else args[AllowNonSegwitSigningWithoutPrevTx := JBool(true)]
  }

  lemma UtxoArgsAsk(last: bool, prv: string, body: Body, txHex: Option<Json>)
    requires body.bitgoPub.Some?
    ensures UtxoAsk(UtxoArgs(last, prv, body, txHex), last, prv, body, txHex)
  {
  }

  lemma UtxoAsks(coin: Coin, prv: string, body: Body, txHex: Option<Json>)
    requires body.bitgoPub.Some?
    ensures UtxoHalf(coin, prv, body, body.bitgoPub.value) ==
            coin.signTransaction(UtxoArgs(false, prv, body, Field(body.unsigned, TxHex)))
    ensures UtxoFull(coin, prv, body, body.bitgoPub.value, txHex) ==
            coin.signTransaction(UtxoArgs(true, prv, body, txHex))
  {
    hide UtxoPrebuild, UtxoPubs;
    var x := UtxoArgs(false, prv, body, Field(body.unsigned, TxHex));
    var y: Fields := map[IsLastSignature := JBool(false),
                         TxPrebuild := UtxoPrebuild(Field(body.unsigned, TxHex), Field(body.unsigned, TxInfo)),
                         AllowNonSegwitSigningWithoutPrevTx := JBool(true),
                         Key.Pubs := UtxoPubs(body, body.bitgoPub.value), Prv := JStr(prv)];
    assert x == y;
    var z: Fields := map[IsLastSignature := JBool(true),
                         TxPrebuild := UtxoPrebuild(txHex, Field(body.unsigned, TxInfo)),
                         Key.Pubs := UtxoPubs(body, body.bitgoPub.value), Prv := JStr(prv)];
    assert UtxoArgs(true, prv, body, txHex) == z;
  }

  /** The user's key signs first and not last, the backup's key last, over what the user's signature left. */
  ghost predicate SignsUtxo(awm: Awm, coin: Coin, body: Body, tx: Fields) {
    && awm.recoveryMode && coin.isUtxo && !coin.isEvm && HasKeys(awm, body) && Truthy(body.bitgoPub)
    && {TxInfo, TxHex, FeeInfo} <= body.unsigned.Keys
    && HasTxHex(tx)
    && exists a: Fields, b: Fields, half: Fields ::
         && UtxoAsk(a, false, awm.getKey(body.userPub, User).value, body, Field(body.unsigned, TxHex))
         && coin.signTransaction(a) == Ok(half)
         && UtxoAsk(b, true, awm.getKey(body.backupPub, Backup).value, body, Field(half, TxHex))
         && coin.signTransaction(b) == Ok(tx)
  }

  /** The two signatures on one server, before the route looks at the outcome. */
  lemma UtxoAskedFor(coin: Coin, body: Body, userPrv: string, backupPrv: string, tx: Fields)
    requires Truthy(body.bitgoPub) && {TxInfo, TxHex, FeeInfo} <= body.unsigned.Keys
    ensures RecoverUtxo(coin, Request(body, None, None), userPrv, backupPrv) == Ok(tx) <==>
              exists a: Fields, b: Fields, half: Fields ::
                && UtxoAsk(a, false, userPrv, body, Field(body.unsigned, TxHex))
                && coin.signTransaction(a) == Ok(half)
                && UtxoAsk(b, true, backupPrv, body, Field(half, TxHex))
                && coin.signTransaction(b) == Ok(tx)
  {
    hide UtxoAsk, UtxoArgs, UtxoHalf, UtxoFull;
    var txHex := Field(body.unsigned, TxHex);
    var a := UtxoArgs(false, userPrv, body, txHex);
    UtxoArgsAsk(false, userPrv, body, txHex);
    UtxoAsks(coin, userPrv, body, txHex);
    if coin.signTransaction(a).Ok? {
      var half := coin.signTransaction(a).value;
      UtxoArgsAsk(true, backupPrv, body, Field(half, TxHex));
      UtxoAsks(coin, backupPrv, body, Field(half, TxHex));
      var b := UtxoArgs(true, backupPrv, body, Field(half, TxHex));
      if coin.signTransaction(b) == Ok(tx) {
        assert UtxoAsk(a, false, userPrv, body, txHex) && coin.signTransaction(a) == Ok(half)
               && UtxoAsk(b, true, backupPrv, body, Field(half, TxHex)) && coin.signTransaction(b) == Ok(tx);
      }
    }
    if a', b', half :| UtxoAsk(a', false, userPrv, body, txHex) && coin.signTransaction(a') == Ok(half)
                       && UtxoAsk(b', true, backupPrv, body, Field(half, TxHex)) && coin.signTransaction(b') == Ok(tx) {
      UtxoAskIsOne(a, a', false, userPrv, body, txHex);
      UtxoAskIsOne(UtxoArgs(true, backupPrv, body, Field(half, TxHex)), b', true, backupPrv, body, Field(half, TxHex));
    }
  }

  /** A UTXO recovery on one server signs exactly this. */
  lemma UtxoSigned(awm: Awm, coin: Coin, body: Body, tx: Fields)
    requires !External(awm, coin) && !coin.isEvm
    ensures Single(awm, coin, body) == Ok(tx) <==> SignsUtxo(awm, coin, body, tx)
  {
    hide UtxoAsk, HasTxHex, Respond;
    if awm.recoveryMode && coin.isUtxo && HasKeys(awm, body) && Truthy(body.bitgoPub)
       && {TxInfo, TxHex, FeeInfo} <= body.unsigned.Keys {
      var userPrv, backupPrv := awm.getKey(body.userPub, User).value, awm.getKey(body.backupPub, Backup).value;
      UtxoAskedFor(coin, body, userPrv, backupPrv, tx);
      var r := RecoverUtxo(coin, Request(body, None, None), userPrv, backupPrv);
      hide RecoverUtxo;
      if r.Ok? {
        Responds(r.value);
      }
    }
  }

  // ----- Refusals -----

  /** Every value that reads as false, an absent one included. */
  const FALSY := {None, Some(JNull), Some(JBool(false)), Some(JNum(0.0)), Some(JStr(""))}

  /** The key provider has a key that this step does not need, or that it does and is not empty. */
  predicate HasKeysFor(awm: Awm, req: Request) {
    && (req.keyToSign == Some(Backup) || Truthy(awm.getKey(req.body.userPub, User)))
    && (req.keyToSign == Some(User) || Truthy(awm.getKey(req.body.backupPub, Backup)))
  }

  /** What is refused whatever the kind of coin. */
  lemma RefusedAlways(awm: Awm, coin: Coin, req: Request)
    ensures var r := Recover(awm, coin, req);
            && (!awm.recoveryMode ==> r == Err(Internal))
            && (awm.recoveryMode && req.keyToSign == Some(Backup) && req.halfSigned in FALSY ==> r == Err(BadRequest))
  {
    FalseValues(req.halfSigned);
  }

  /** What is refused once the keys are looked up: a half without its shape, terms the coin cannot be signed under. */
  lemma RefusedByCoin(awm: Awm, coin: Coin, req: Request)
    requires awm.recoveryMode && !External(awm, coin)
    requires req.keyToSign == Some(Backup) ==> req.halfSigned !in FALSY
    ensures var r := Recover(awm, coin, req);
            var backup := req.keyToSign == Some(Backup);
            && (!HasKeysFor(awm, req) ==> r in {Err(Network), Err(Internal)})
            && (HasKeysFor(awm, req) && coin.isEvm ==>
                  && (!coin.isEthLike ==> r == Err(NotImplemented))
                  && (coin.isEthLike && !backup && !HasRecipients(req.body) ==> r == Err(Internal))
                  && (coin.isEthLike && backup && !NestedHex(req.halfSigned) ==> r == Err(BadRequest)))
            && (HasKeysFor(awm, req) && !coin.isEvm && !coin.isUtxo ==> r == Err(NotImplemented))
            && (HasKeysFor(awm, req) && !coin.isEvm && coin.isUtxo ==>
                  && (!backup && !({TxInfo, TxHex, FeeInfo} <= req.body.unsigned.Keys) ==> r == Err(NotImplemented))
                  && (backup && !Truthy(req.body.bitgoPub) ==> r == Err(Internal))
                  && (backup && Truthy(req.body.bitgoPub) && !TopHex(req.halfSigned) ==> r == Err(BadRequest))
                  && (backup && Truthy(req.body.bitgoPub) && Field(req.body.unsigned, TxInfo) in FALSY ==>
                        r == Err(BadRequest)))
  {
    FalseValues(req.halfSigned);
    FalseValues(Field(req.body.unsigned, TxInfo));
    HasRecipientsIs(req.body);
    hide HasRecipients, NoRecipients, EthBackupFull, EthUserHalf, UtxoHalf, UtxoFull, Truth;
  }

  /** An external signature of the backup needs a half at the top, and a string there for an EVM coin. */
  lemma RefusedExternally(awm: Awm, coin: Coin, req: Request)
    requires awm.recoveryMode && External(awm, coin) && req.keyToSign == Some(Backup) && req.halfSigned !in FALSY
    requires (coin.isEvm && !TopHex(req.halfSigned)) || !req.halfSigned.value.JObj?
             || Field(req.halfSigned.value.fields, TxHex) in FALSY
    ensures Recover(awm, coin, req) == Err(BadRequest)
  {
    FalseValues(req.halfSigned);
    FalseValues(Optional(req.halfSigned, TxHex));
    hide Truth;
  }

  // ----- External signing -----

  /** The user's signature over the unsigned transaction, and the backup's over that signature. */
  ghost predicate SignsExternally(awm: Awm, body: Body, tx: Fields) {
    && awm.recoveryMode
    && exists half, full ::
         && awm.sign(body.userPub, User, Field(body.unsigned, TxHex)) == Some(half) && half != ""
         && awm.sign(body.backupPub, Backup, Some(JStr(half))) == Some(full) && full != ""
         && tx == map[TxHex := JStr(full)]
  }

  /** An externally signed recovery on one server signs exactly this. */
  lemma ExternallySigned(awm: Awm, coin: Coin, body: Body, tx: Fields)
    requires External(awm, coin)
    ensures Single(awm, coin, body) == Ok(tx) <==> SignsExternally(awm, body, tx)
  {
  }

  // ----- EVM -----

  /** The extended public key the transaction gives for one of the three keys. */
  function XpubOf(body: Body, key: Key): Json {
    var keys := Field(body.unsigned, XpubxWithDerivationPath);
    if IsObject(keys) && IsObject(Field(keys.value.fields, key)) && Xpub in keys.value.fields[key].fields then
      keys.value.fields[key].fields[Xpub]
    else JNull
  }

  function Xpubs(body: Body): Json {
    JArr([XpubOf(body, UserKey), XpubOf(body, BackupKey), XpubOf(body, BitgoKey)])
  }

  const FEES := JObj(map[MaxFeePerGas := JNum(20000000000.0), MaxPriorityFeePerGas := JNum(10000000000.0)])

  /** The replay protection the whole recovery is signed under. */
  function Protection(env: EnvName, body: Body): Json {
    InForce(env, Field(body.unsigned, ReplayProtectionOptions))
  }

  /** What the user's signature is asked with, apart from the transaction. */
  function UserField(env: EnvName, prv: string, body: Body, k: Key): Option<Json> {
    match k
    case IsLastSignature => Some(JBool(false))
    case Prv => Some(JStr(prv))
    case Pubs => Some(Xpubs(body))
    case KeyList => Field(body.unsigned, XpubxWithDerivationPath)
    case Recipients => Some(OrEmpty(Field(body.unsigned, Recipients)))
    case ExpireTime => Field(body.unsigned, ExpireTime)
    case SigningKeyNonce => Field(body.unsigned, SigningKeyNonce)
    case GasPrice => Some(JNum(20000000000.0))
    case GasLimit => Some(JNum(200000.0))
    case Eip1559 => Some(FEES)
    case ReplayProtectionOptions => Some(Protection(env, body))
    case WalletContractAddress => JString(body.walletContractAddress)
    case _ => None
  }

  /** The transaction the user's key signs. */
  function UserPrebuildField(env: EnvName, body: Body, k: Key): Option<Json> {
    match k
    case GasPrice => Some(JNum(20000000000.0))
    case GasLimit => Some(JNum(200000.0))
    case Eip1559 => Some(FEES)
    case ReplayProtectionOptions => Some(Protection(env, body))
    case _ => Field(body.unsigned, k)
  }

  /** What the backup's signature is asked with, given what the user's left. */
  function BackupField(prv: string, body: Body, signed: Fields, k: Key): Option<Json> {
    var nonce := Optional(Field(signed, HalfSigned), BackupKeyNonce);
    match k
    case IsLastSignature => Some(JBool(true))
    case Prv => Some(JStr(prv))
    case Pubs => Some(Xpubs(body))
    case KeyList => Field(body.unsigned, XpubxWithDerivationPath)
    case Recipients => Some(OrEmpty(Field(signed, Recipients)))
    case ExpireTime => Optional(Field(signed, HalfSigned), ExpireTime)
    case SigningKeyNonce => nonce
    case BackupKeyNonce => Some(if nonce.Some? && nonce.value != JNull then nonce.value else JNum(0.0))
    case GasPrice => Some(JNum(20000000000.0))
    case GasLimit => Some(JNum(200000.0))
    case WalletContractAddress => JString(body.walletContractAddress)
    case _ => None
  }

  /** The transaction the backup's key signs: the nested half, on the decorated transaction. */
  function BackupPrebuildField(env: EnvName, body: Body, signed: Fields, k: Key): Option<Json> {
    match k
    case TxHex => Optional(Field(signed, HalfSigned), TxHex)
    case HalfSigned => Field(signed, HalfSigned)
    case Recipients => Some(OrEmpty(Optional(Field(signed, HalfSigned), Recipients)))
    case GasPrice => Some(JNum(20000000000.0))
    case GasLimit => Some(JNum(200000.0))
    case Eip1559 => Some(FEES)
    case ReplayProtectionOptions => Some(Protection(env, body))
    case _ => ExtraField(env, signed, body.unsigned, false, Field(body.unsigned, ReplayProtectionOptions), k)
  }

  ghost predicate EthUserAsk(args: Fields, env: EnvName, prv: string, body: Body) {
    && (forall k | k != TxPrebuild :: Field(args, k) == UserField(env, prv, body, k))
    && IsObject(Field(args, TxPrebuild))
    && forall k :: Field(args[TxPrebuild].fields, k) == UserPrebuildField(env, body, k)
  }

  ghost predicate EthBackupAsk(args: Fields, env: EnvName, prv: string, body: Body, signed: Fields) {
    && (forall k | k != TxPrebuild :: Field(args, k) == BackupField(prv, body, signed, k))
    && IsObject(Field(args, TxPrebuild))
    && forall k :: Field(args[TxPrebuild].fields, k) == BackupPrebuildField(env, body, signed, k)
  }

  /** Two argument records with the same fields around the same transaction are one. */
  lemma AskIsOne(a: Fields, b: Fields)
    requires forall k | k != TxPrebuild :: Field(a, k) == Field(b, k)
    requires IsObject(Field(a, TxPrebuild)) && IsObject(Field(b, TxPrebuild))
    requires forall k :: Field(a[TxPrebuild].fields, k) == Field(b[TxPrebuild].fields, k)
    ensures a == b
  {
    SameFields(a[TxPrebuild].fields, b[TxPrebuild].fields);
    forall k ensures Field(a, k) == Field(b, k) {
      if k == TxPrebuild {
        assert a[TxPrebuild] == JObj(a[TxPrebuild].fields) && b[TxPrebuild] == JObj(b[TxPrebuild].fields);
      }
    }
    SameFields(a, b);
  }

  lemma XpubsAre(body: Body)
    ensures EthPubs(body.unsigned) == Xpubs(body)
  {
  }

  lemma FixedUserValues(env: EnvName, prv: string, body: Body)
    ensures var m := EthUserFixedArgs(env, prv, body);
            && m.Keys == {IsLastSignature, Prv, Key.Pubs, Recipients, GasPrice, GasLimit, Eip1559,
                          ReplayProtectionOptions, TxPrebuild}
            && m[IsLastSignature] == JBool(false) && m[Prv] == JStr(prv) && m[Key.Pubs] == Xpubs(body)
            && m[GasPrice] == JNum(20000000000.0) && m[GasLimit] == JNum(200000.0) && m[Eip1559] == FEES
            && m[Recipients] == OrEmpty(Field(body.unsigned, Recipients))
            && m[ReplayProtectionOptions] == Protection(env, body)
  {
    XpubsAre(body);
    ReplayProtectionInForce(env, Field(body.unsigned, ReplayProtectionOptions));
    hide EthPubs, Xpubs, Priced, GetReplayProtectionOptions, InForce;
  }

  lemma FixedUserArgsAt(env: EnvName, prv: string, body: Body, k: Key)
    requires k != TxPrebuild
    ensures Field(EthUserFixedArgs(env, prv, body), k) ==
            if k.KeyList? || k.ExpireTime? || k.SigningKeyNonce? || k.WalletContractAddress? then None
            else UserField(env, prv, body, k)
  {
    hide EthUserFixedArgs, Xpubs, OrEmpty, Protection;
    FixedUserValues(env, prv, body);
  }

  lemma UserArgsAt(env: EnvName, prv: string, body: Body, k: Key)
    requires k != TxPrebuild
    ensures Field(EthUserArgs(env, prv, body), k) == UserField(env, prv, body, k)
  {
    hide EthUserFixedArgs, Put, Field, JString, OrEmpty, Protection, Xpubs;
    var tx := body.unsigned;
    var a0 := EthUserFixedArgs(env, prv, body);
    var a1 := Put(a0, KeyList, WalletKeys(tx));
    var a2 := Put(a1, ExpireTime, Field(tx, ExpireTime));
    var a3 := Put(a2, SigningKeyNonce, Field(tx, SigningKeyNonce));
    FixedUserArgsAt(env, prv, body, k);
    PutAt(a0, KeyList, WalletKeys(tx), k);
    PutAt(a1, ExpireTime, Field(tx, ExpireTime), k);
    PutAt(a2, SigningKeyNonce, Field(tx, SigningKeyNonce), k);
    PutAt(a3, WalletContractAddress, JString(body.walletContractAddress), k);
  }

  /** The fees and the protection on top of a transaction. */
  lemma PricedAt(tx: Fields, replay: Json, k: Key)
    ensures Field(Priced(tx, replay), k) ==
              match k
              case GasPrice => Some(JNum(20000000000.0))
              case GasLimit => Some(JNum(200000.0))
              case Eip1559 => Some(FEES)
              case ReplayProtectionOptions => Some(replay)
              case _ => Field(tx, k)
  {
  }

  /** The transaction is not among the fields that may be absent. */
  lemma UserPrebuild(env: EnvName, prv: string, body: Body)
    ensures Field(EthUserArgs(env, prv, body), TxPrebuild) ==
            Some(JObj(Priced(body.unsigned,
                             GetReplayProtectionOptions(env, Field(body.unsigned, ReplayProtectionOptions)))))
  {
    var tx := body.unsigned;
    var a0 := EthUserFixedArgs(env, prv, body);
    assert Field(a0, TxPrebuild) ==
           Some(JObj(Priced(tx, GetReplayProtectionOptions(env, Field(tx, ReplayProtectionOptions)))));
    hide EthUserFixedArgs, Put, Field, Priced;
    var a1 := Put(a0, KeyList, WalletKeys(tx));
    var a2 := Put(a1, ExpireTime, Field(tx, ExpireTime));
    var a3 := Put(a2, SigningKeyNonce, Field(tx, SigningKeyNonce));
    PutAt(a0, KeyList, WalletKeys(tx), TxPrebuild);
    PutAt(a1, ExpireTime, Field(tx, ExpireTime), TxPrebuild);
    PutAt(a2, SigningKeyNonce, Field(tx, SigningKeyNonce), TxPrebuild);
    PutAt(a3, WalletContractAddress, JString(body.walletContractAddress), TxPrebuild);
  }

  lemma UserAsked(env: EnvName, prv: string, body: Body)
    ensures EthUserAsk(EthUserArgs(env, prv, body), env, prv, body)
  {
    hide EthUserArgs, UserField, Priced, GetReplayProtectionOptions, InForce;
    var args := EthUserArgs(env, prv, body);
    var given := Field(body.unsigned, ReplayProtectionOptions);
    UserPrebuild(env, prv, body);
    ReplayProtectionInForce(env, given);
    forall k | k != TxPrebuild ensures Field(args, k) == UserField(env, prv, body, k) {
      UserArgsAt(env, prv, body, k);
    }
    forall k ensures Field(args[TxPrebuild].fields, k) == UserPrebuildField(env, body, k) {
      PricedAt(body.unsigned, GetReplayProtectionOptions(env, given), k);
    }
  }

  lemma FixedBackupValues(env: EnvName, prv: string, body: Body, half: Fields)
    ensures var m := EthBackupFixedArgs(env, prv, body, half);
            var nonce := Optional(Field(half, HalfSigned), BackupKeyNonce);
            && m.Keys == {IsLastSignature, Prv, Key.Pubs, Recipients, GasPrice, GasLimit, TxPrebuild, BackupKeyNonce}
            && m[IsLastSignature] == JBool(true) && m[Prv] == JStr(prv) && m[Key.Pubs] == Xpubs(body)
            && m[GasPrice] == JNum(20000000000.0) && m[GasLimit] == JNum(200000.0)
            && m[Recipients] == OrEmpty(Field(half, Recipients))
            && m[BackupKeyNonce] == (if nonce.Some? && nonce.value != JNull then nonce.value else JNum(0.0))
            && m[TxPrebuild] == JObj(EthBackupPrebuild(env, half))
  {
    XpubsAre(body);
    hide EthPubs, Xpubs, EthBackupPrebuild;
  }

  /** The decoration leaves what the user's signature nested, and its recipients. */
  lemma DecorationKeeps(env: EnvName, signed: Fields, tx: Fields, replay: Option<Json>)
    ensures var half := Extras(env, signed, tx, false, replay);
            && Field(half, HalfSigned) == Field(signed, HalfSigned)
            && Field(half, Recipients) == Field(signed, Recipients)
            && Field(half, ReplayProtectionOptions) == Some(InForce(env, replay))
  {
    hide Extras, InForce;
    ExtrasAt(env, signed, tx, false, replay, HalfSigned);
    ExtrasAt(env, signed, tx, false, replay, Recipients);
    ExtrasAt(env, signed, tx, false, replay, ReplayProtectionOptions);
  }

  lemma FixedBackupFields(prv: string, body: Body, signed: Fields)
    ensures var nonce := Optional(Field(signed, HalfSigned), BackupKeyNonce);
            && BackupField(prv, body, signed, IsLastSignature) == Some(JBool(true))
            && BackupField(prv, body, signed, Prv) == Some(JStr(prv))
            && BackupField(prv, body, signed, Key.Pubs) == Some(Xpubs(body))
            && BackupField(prv, body, signed, Recipients) == Some(OrEmpty(Field(signed, Recipients)))
            && BackupField(prv, body, signed, GasPrice) == Some(JNum(20000000000.0))
            && BackupField(prv, body, signed, GasLimit) == Some(JNum(200000.0))
            && BackupField(prv, body, signed, BackupKeyNonce) ==
                 Some(if nonce.Some? && nonce.value != JNull then nonce.value else JNum(0.0))
  {
    hide Xpubs, OrEmpty, Optional;
  }

  lemma NoBackupField(prv: string, body: Body, signed: Fields, k: Key)
    requires k !in {IsLastSignature, Prv, Key.Pubs, Recipients, GasPrice, GasLimit, TxPrebuild, BackupKeyNonce,
                    KeyList, ExpireTime, SigningKeyNonce, WalletContractAddress}
    ensures BackupField(prv, body, signed, k) == None
  {
    hide Xpubs, OrEmpty, Optional, JString;
  }

  lemma FixedBackupArgsAt(env: EnvName, prv: string, body: Body, half: Fields, signed: Fields, k: Key)
    requires k != TxPrebuild
    requires Field(half, HalfSigned) == Field(signed, HalfSigned)
    requires Field(half, Recipients) == Field(signed, Recipients)
    ensures Field(EthBackupFixedArgs(env, prv, body, half), k) ==
            if k.KeyList? || k.ExpireTime? || k.SigningKeyNonce? || k.WalletContractAddress? then None
            else BackupField(prv, body, signed, k)
  {
    hide EthBackupFixedArgs, Xpubs, OrEmpty, Optional, JString, EthBackupPrebuild;
    FixedBackupValues(env, prv, body, half);
    var m := EthBackupFixedArgs(env, prv, body, half);
    hide BackupField;
    if k in m {
      FixedBackupFields(prv, body, signed);
    } else if !(k.KeyList? || k.ExpireTime? || k.SigningKeyNonce? || k.WalletContractAddress?) {
      NoBackupField(prv, body, signed, k);
    }
  }

  lemma BackupArgsAt(env: EnvName, prv: string, body: Body, half: Fields, signed: Fields, k: Key)
    requires k != TxPrebuild
    requires Field(half, HalfSigned) == Field(signed, HalfSigned)
    requires Field(half, Recipients) == Field(signed, Recipients)
    ensures Field(EthBackupArgs(env, prv, body, half), k) == BackupField(prv, body, signed, k)
  {
    hide EthBackupFixedArgs, Put, Field, JString, OrEmpty, Xpubs, Optional;
    FixedBackupArgsAt(env, prv, body, half, signed, k);
    BackupPuts(env, prv, body, half, k);
  }

  /** What is put on top of the fixed arguments of the backup's signature. */
  lemma BackupPuts(env: EnvName, prv: string, body: Body, half: Fields, k: Key)
    ensures var halfSigned := Field(half, HalfSigned);
            Field(EthBackupArgs(env, prv, body, half), k) ==
              match k
              case KeyList => Field(body.unsigned, XpubxWithDerivationPath)
              case ExpireTime => Optional(halfSigned, ExpireTime)
              case SigningKeyNonce => Optional(halfSigned, BackupKeyNonce)
              case WalletContractAddress => JString(body.walletContractAddress)
              case _ => Field(EthBackupFixedArgs(env, prv, body, half), k)
  {
    hide EthBackupFixedArgs, Put, Field, JString, Optional;
    var halfSigned := Field(half, HalfSigned);
    var a0 := EthBackupFixedArgs(env, prv, body, half);
    var a1 := Put(a0, KeyList, WalletKeys(body.unsigned));
    var a2 := Put(a1, ExpireTime, Optional(halfSigned, ExpireTime));
    var a3 := Put(a2, SigningKeyNonce, Optional(halfSigned, BackupKeyNonce));
    PutAt(a0, KeyList, WalletKeys(body.unsigned), k);
    PutAt(a1, ExpireTime, Optional(halfSigned, ExpireTime), k);
    PutAt(a2, SigningKeyNonce, Optional(halfSigned, BackupKeyNonce), k);
    PutAt(a3, WalletContractAddress, JString(body.walletContractAddress), k);
  }

  lemma BackupPrebuild(env: EnvName, prv: string, body: Body, half: Fields)
    ensures Field(EthBackupArgs(env, prv, body, half), TxPrebuild) == Some(JObj(EthBackupPrebuild(env, half)))
  {
    hide EthBackupFixedArgs, EthBackupPrebuild, EthBackupArgs, Xpubs, OrEmpty, Optional;
    FixedBackupValues(env, prv, body, half);
    BackupPuts(env, prv, body, half, TxPrebuild);
  }

  /** What is put on top of the half that the backup's key completes. */
  lemma PrebuildPuts(env: EnvName, half: Fields, k: Key)
    ensures var halfSigned := Field(half, HalfSigned);
            Field(EthBackupPrebuild(env, half), k) ==
              match k
              case TxHex => Optional(halfSigned, TxHex)
              case HalfSigned => halfSigned
              case Recipients => Some(OrEmpty(Optional(halfSigned, Recipients)))
              case GasPrice => Some(JNum(20000000000.0))
              case GasLimit => Some(JNum(200000.0))
              case Eip1559 => Some(FEES)
              case ReplayProtectionOptions =>
                Some(GetReplayProtectionOptions(env, Field(half, ReplayProtectionOptions)))
              case _ => Field(half, k)
  {
    OrEmptyIs(Optional(Field(half, HalfSigned), Recipients));
    hide GetReplayProtectionOptions, Put, Priced, Optional, OrEmpty, Coalesce, Field;
    var halfSigned := Field(half, HalfSigned);
    var recipients := Some(OrEmpty(Optional(halfSigned, Recipients)));
    var t1 := Put(half, TxHex, Optional(halfSigned, TxHex));
    var t2 := Put(t1, HalfSigned, halfSigned);
    var t3 := Put(t2, Recipients, recipients);
    PutAt(half, TxHex, Optional(halfSigned, TxHex), k);
    PutAt(t1, HalfSigned, halfSigned, k);
    PutAt(t2, Recipients, recipients, k);
    PricedAt(t3, GetReplayProtectionOptions(env, Field(half, ReplayProtectionOptions)), k);
  }

  /** A protection in force in one environment is in force in every other. */
  lemma ProtectionStays(env': EnvName, env: EnvName, given: Option<Json>)
    ensures GetReplayProtectionOptions(env', Some(InForce(env, given))) == InForce(env, given)
  {
  }

  lemma BackupPrebuildAt(env': EnvName, env: EnvName, body: Body, signed: Fields, k: Key)
    ensures var half := Extras(env, signed, body.unsigned, false, Field(body.unsigned, ReplayProtectionOptions));
            Field(EthBackupPrebuild(env', half), k) == BackupPrebuildField(env, body, signed, k)
  {
    var given := Field(body.unsigned, ReplayProtectionOptions);
    var half := Extras(env, signed, body.unsigned, false, given);
    hide Extras, InForce, GetReplayProtectionOptions, EthBackupPrebuild, Optional, OrEmpty, ExtraField, Field;
    DecorationKeeps(env, signed, body.unsigned, given);
    ProtectionStays(env', env, given);
    ExtrasAt(env, signed, body.unsigned, false, given, k);
    PrebuildPuts(env', half, k);
  }

  lemma OrEmptyIs(x: Option<Json>)
    ensures Coalesce(x, JArr([])) == OrEmpty(x)
  {
  }

  lemma BackupAsked(env': EnvName, env: EnvName, prv: string, body: Body, signed: Fields)
    ensures var half := Extras(env, signed, body.unsigned, false, Field(body.unsigned, ReplayProtectionOptions));
            EthBackupAsk(EthBackupArgs(env', prv, body, half), env, prv, body, signed)
  {
    hide EthBackupArgs, EthBackupPrebuild, BackupField, BackupPrebuildField, Extras;
    var given := Field(body.unsigned, ReplayProtectionOptions);
    var half := Extras(env, signed, body.unsigned, false, given);
    var args := EthBackupArgs(env', prv, body, half);
    DecorationKeeps(env, signed, body.unsigned, given);
    BackupPrebuild(env', prv, body, half);
    forall k | k != TxPrebuild ensures Field(args, k) == BackupField(prv, body, signed, k) {
      BackupArgsAt(env', prv, body, half, signed, k);
    }
    forall k ensures Field(args[TxPrebuild].fields, k) == BackupPrebuildField(env, body, signed, k) {
      BackupPrebuildAt(env', env, body, signed, k);
    }
  }

  /** The transaction names somebody to pay. */
  predicate HasRecipients(body: Body) {
    && Recipients in body.unsigned
    && body.unsigned[Recipients] !in {JNull, JBool(false), JNum(0.0), JStr(""), JArr([])}
    && (body.unsigned[Recipients].JObj? ==> Field(body.unsigned[Recipients].fields, Length) != Some(JNum(0.0)))
  }

  lemma HasRecipientsIs(body: Body)
    ensures NoRecipients(Field(body.unsigned, Recipients)) <==> !HasRecipients(body)
  {
  }

  /** The user's key signs first and not last, the backup's key last, over what the user's signature nested. */
  ghost predicate SignsEthLike(awm: Awm, coin: Coin, body: Body, tx: Fields) {
    && awm.recoveryMode && coin.isEvm && coin.isEthLike && HasKeys(awm, body) && HasRecipients(body)
    && HasTxHex(tx)
    && exists a: Fields, b: Fields, signed: Fields ::
         && EthUserAsk(a, awm.env, awm.getKey(body.userPub, User).value, body)
         && coin.signTransaction(a) == Ok(signed)
         && EthBackupAsk(b, awm.env, awm.getKey(body.backupPub, Backup).value, body, signed)
         && coin.signTransaction(b) == Ok(tx)
  }

  /** The two signatures on one server, before the route looks at the outcome. */
  lemma EthLikeAsks(coin: Coin, env: EnvName, body: Body, userPrv: string, backupPrv: string, tx: Fields)
    requires HasRecipients(body) && coin.isEthLike
    ensures RecoverEthLike(coin, env, Request(body, None, None), userPrv, backupPrv) == Ok(tx) <==>
              exists a: Fields, b: Fields, signed: Fields ::
                && EthUserAsk(a, env, userPrv, body) && coin.signTransaction(a) == Ok(signed)
                && EthBackupAsk(b, env, backupPrv, body, signed) && coin.signTransaction(b) == Ok(tx)
  {
    HasRecipientsIs(body);
    hide EthUserAsk, EthBackupAsk, EthUserArgs, EthBackupArgs, Extras, NoRecipients, HasRecipients;
    var a := EthUserArgs(env, userPrv, body);
    UserAsked(env, userPrv, body);
    if coin.signTransaction(a).Ok? {
      var signed := coin.signTransaction(a).value;
      var half := Extras(env, signed, body.unsigned, false, Field(body.unsigned, ReplayProtectionOptions));
      var b := EthBackupArgs(env, backupPrv, body, half);
      BackupAsked(env, env, backupPrv, body, signed);
      if RecoverEthLike(coin, env, Request(body, None, None), userPrv, backupPrv) == Ok(tx) {
        assert EthUserAsk(a, env, userPrv, body) && coin.signTransaction(a) == Ok(signed)
               && EthBackupAsk(b, env, backupPrv, body, signed) && coin.signTransaction(b) == Ok(tx);
      }
    }
    if a', b', signed :| EthUserAsk(a', env, userPrv, body) && coin.signTransaction(a') == Ok(signed)
                         && EthBackupAsk(b', env, backupPrv, body, signed) && coin.signTransaction(b') == Ok(tx) {
      UserAskIsOne(a, a', env, userPrv, body);
      var half := Extras(env, signed, body.unsigned, false, Field(body.unsigned, ReplayProtectionOptions));
      BackupAskIsOne(EthBackupArgs(env, backupPrv, body, half), b', env, backupPrv, body, signed);
    }
  }

  lemma UserAskIsOne(a: Fields, b: Fields, env: EnvName, prv: string, body: Body)
    requires EthUserAsk(a, env, prv, body) && EthUserAsk(b, env, prv, body)
    ensures a == b
  {
    hide UserField, UserPrebuildField;
    AskIsOne(a, b);
  }

  lemma BackupAskIsOne(a: Fields, b: Fields, env: EnvName, prv: string, body: Body, signed: Fields)
    requires EthBackupAsk(a, env, prv, body, signed) && EthBackupAsk(b, env, prv, body, signed)
    ensures a == b
  {
    hide BackupField, BackupPrebuildField;
    AskIsOne(a, b);
  }

  /** An EVM recovery on one server signs exactly this. */
  lemma EthLikeSigned(awm: Awm, coin: Coin, body: Body, tx: Fields)
    requires !External(awm, coin) && coin.isEvm
    ensures Single(awm, coin, body) == Ok(tx) <==> SignsEthLike(awm, coin, body, tx)
  {
    hide EthUserAsk, EthBackupAsk, HasTxHex, Respond, HasRecipients, NoRecipients;
    HasRecipientsIs(body);
    if awm.recoveryMode && coin.isEthLike && HasKeys(awm, body) && HasRecipients(body) {
      var userPrv, backupPrv := awm.getKey(body.userPub, User).value, awm.getKey(body.backupPub, Backup).value;
      EthLikeAsks(coin, awm.env, body, userPrv, backupPrv, tx);
      var r := RecoverEthLike(coin, awm.env, Request(body, None, None), userPrv, backupPrv);
      hide RecoverEthLike;
      if r.Ok? {
        Responds(r.value);
      }
    }
  }
}
