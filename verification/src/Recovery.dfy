/**
  Multisig recovery signing. One AWM signs with both keys in one call, or the user's AWM signs
  a half that the backup's AWM, another server, completes in a second call.
 */
module Recovery {
  import opened Prelude
  import opened Json
  import opened RecoveryUtils
  import opened AsyncUtils

  /** A coin of the SDK: its family, and how it signs. */
  datatype Coin = Coin(isEvm: bool, isEthLike: bool, isUtxo: bool, signTransaction: Fields -> Result<Fields>)

  /** A server: its configuration, and the key provider behind it. */
  datatype Awm = Awm(
    recoveryMode: bool, externalSigning: bool, env: EnvName,
    getKey: (string, Source) -> Option<string>,
    sign: (string, Source, Option<Json>) -> Option<string>)

  /** What is recovered, whoever signs. */
  datatype Body = Body(
    userPub: string, backupPub: string, bitgoPub: Option<string>,
    unsigned: Fields, walletContractAddress: Option<string>)

  /** A request says which key signs, or leaves it out for both. */
  datatype Request = Request(body: Body, keyToSign: Option<Source>, halfSigned: Option<Json>)

  function JString(s: Option<string>): Option<Json> {
    if s.None? then None else Some(JStr(s.value))
  }

  // ----- Shapes -----

  /** A top-level `txHex` string. */
  predicate FlatTxHex(x: Option<Json>) {
    IsString(Optional(x, TxHex))
  }

  /** A nested `halfSigned.txHex` string. */
  predicate EthLikeHalfSigned(x: Option<Json>) {
    IsString(Optional(Optional(x, HalfSigned), TxHex))
  }

  /** The response type of the route; any other body does not reach the caller. */
  function Respond(tx: Fields): Result<Fields> {
    if FlatTxHex(Some(JObj(tx))) || EthLikeHalfSigned(Some(JObj(tx))) then Ok(tx) else Err(Internal)
  }

  // ----- EVM -----

  function WalletKeys(unsigned: Fields): Option<Json> {
    Field(unsigned, XpubxWithDerivationPath)
  }

  function EthPubs(unsigned: Fields): Json {
    JArr([Element(Optional(Optional(WalletKeys(unsigned), UserKey), Xpub)),
          Element(Optional(Optional(WalletKeys(unsigned), BackupKey), Xpub)),
          Element(Optional(Optional(WalletKeys(unsigned), BitgoKey), Xpub))])
  }

  /** `!recipients || recipients.length === 0`. */
  predicate NoRecipients(recipients: Option<Json>) {
    || !Truth(recipients)
    || recipients == Some(JArr([]))
    || Optional(recipients, Length) == Some(JNum(0.0))
  }

  /** `...tx` with the fee parameters and the replay protection of this signature. */
  function Priced(tx: Fields, replay: Json): Fields {
    tx[GasPrice := GAS_PRICE][GasLimit := GAS_LIMIT][Eip1559 := EIP1559][ReplayProtectionOptions := replay]
  }

  /** The arguments of the user's signature that are always there. */
  function EthUserFixedArgs(env: EnvName, prv: string, body: Body): Fields {
    var replay := GetReplayProtectionOptions(env, Field(body.unsigned, ReplayProtectionOptions));
    map[IsLastSignature := JBool(false), Prv := JStr(prv), Pubs := EthPubs(body.unsigned),
        Recipients := Coalesce(Field(body.unsigned, Recipients), JArr([])),
        GasPrice := GAS_PRICE, GasLimit := GAS_LIMIT, Eip1559 := EIP1559,
        ReplayProtectionOptions := replay, TxPrebuild := JObj(Priced(body.unsigned, replay))]
  }

  function EthUserArgs(env: EnvName, prv: string, body: Body): Fields {
    var tx := body.unsigned;
    var args := Put(EthUserFixedArgs(env, prv, body), KeyList, WalletKeys(tx));
    var args := Put(args, ExpireTime, Field(tx, ExpireTime));
    var args := Put(args, SigningKeyNonce, Field(tx, SigningKeyNonce));
    Put(args, WalletContractAddress, JString(body.walletContractAddress))
  }

  /** The user's signature, decorated with what the backup's signature needs. */
  function EthUserHalf(coin: Coin, env: EnvName, prv: string, body: Body): Result<Fields> {
    var half :- coin.signTransaction(EthUserArgs(env, prv, body));
    Ok(Extras(env, half, body.unsigned, false, Field(body.unsigned, ReplayProtectionOptions)))
  }

  /** The transaction the backup key signs. */
  function EthBackupPrebuild(env: EnvName, half: Fields): Fields {
    var halfSigned := Field(half, HalfSigned);
    var tx := Put(half, TxHex, Optional(halfSigned, TxHex));
    var tx := Put(tx, HalfSigned, halfSigned);
    var tx := Put(tx, Recipients, Some(Coalesce(Optional(halfSigned, Recipients), JArr([]))));
    Priced(tx, GetReplayProtectionOptions(env, Field(half, ReplayProtectionOptions)))
  }

  function EthBackupFixedArgs(env: EnvName, prv: string, body: Body, half: Fields): Fields {
    map[IsLastSignature := JBool(true), Prv := JStr(prv), Pubs := EthPubs(body.unsigned),
        Recipients := Coalesce(Field(half, Recipients), JArr([])),
        GasPrice := GAS_PRICE, GasLimit := GAS_LIMIT,
        TxPrebuild := JObj(EthBackupPrebuild(env, half)),
        BackupKeyNonce := Coalesce(Optional(Field(half, HalfSigned), BackupKeyNonce), JNum(0.0))]
  }

  function EthBackupArgs(env: EnvName, prv: string, body: Body, half: Fields): Fields {
    var halfSigned := Field(half, HalfSigned);
    var args := Put(EthBackupFixedArgs(env, prv, body, half), KeyList, WalletKeys(body.unsigned));
    var args := Put(args, ExpireTime, Optional(halfSigned, ExpireTime));
    var args := Put(args, SigningKeyNonce, Optional(halfSigned, BackupKeyNonce));
    Put(args, WalletContractAddress, JString(body.walletContractAddress))
  }

  function EthBackupFull(coin: Coin, env: EnvName, prv: string, body: Body, half: Fields): Result<Fields> {
    coin.signTransaction(EthBackupArgs(env, prv, body, half))
  }

  function RecoverEthLike(coin: Coin, env: EnvName, req: Request, userPrv: string, backupPrv: string): Result<Fields> {
    if !coin.isEthLike then Err(NotImplemented)
    else if req.keyToSign == Some(Backup) then
      if !EthLikeHalfSigned(req.halfSigned) then Err(BadRequest)
      else EthBackupFull(coin, env, backupPrv, req.body, req.halfSigned.value.fields)
    else if NoRecipients(Field(req.body.unsigned, Recipients)) then Err(Internal)
    else
      var half :- EthUserHalf(coin, env, userPrv, req.body);
      if req.keyToSign == Some(User) then Ok(half)
      else EthBackupFull(coin, env, backupPrv, req.body, half)
  }

  // ----- UTXO -----

  function UtxoPubs(body: Body, bitgoPub: string): Json {
    JArr([JStr(body.userPub), JStr(body.backupPub), JStr(bitgoPub)])
  }

  function UtxoPrebuild(txHex: Option<Json>, txInfo: Option<Json>): Json {
    JObj(Put(Put(map[], TxHex, txHex), TxInfo, txInfo))
  }

  function UtxoHalf(coin: Coin, prv: string, body: Body, bitgoPub: string): Result<Fields> {
    coin.signTransaction(
      map[IsLastSignature := JBool(false),
          TxPrebuild := UtxoPrebuild(Field(body.unsigned, TxHex), Field(body.unsigned, TxInfo)),
          AllowNonSegwitSigningWithoutPrevTx := JBool(true),
          Pubs := UtxoPubs(body, bitgoPub), Prv := JStr(prv)])
  }

  function UtxoFull(coin: Coin, prv: string, body: Body, bitgoPub: string, txHex: Option<Json>): Result<Fields> {
    coin.signTransaction(
      map[IsLastSignature := JBool(true),
          TxPrebuild := UtxoPrebuild(txHex, Field(body.unsigned, TxInfo)),
          Pubs := UtxoPubs(body, bitgoPub), Prv := JStr(prv)])
  }

  predicate FormattedOfflineVault(tx: Fields) {
    TxInfo in tx && TxHex in tx && FeeInfo in tx
  }

  function RecoverUtxo(coin: Coin, req: Request, userPrv: string, backupPrv: string): Result<Fields> {
    var body := req.body;
    if req.keyToSign != Some(Backup) && !FormattedOfflineVault(body.unsigned) then Err(NotImplemented)
    else if !Truthy(body.bitgoPub) then Err(Internal)
    else if req.keyToSign == Some(Backup) then
      if !FlatTxHex(req.halfSigned) then Err(BadRequest)
      else if !Truth(Field(body.unsigned, TxInfo)) then Err(BadRequest)
      else UtxoFull(coin, backupPrv, body, body.bitgoPub.value, Optional(req.halfSigned, TxHex))
    else
      var half :- UtxoHalf(coin, userPrv, body, body.bitgoPub.value);
      if req.keyToSign == Some(User) then Ok(half)
      else UtxoFull(coin, backupPrv, body, body.bitgoPub.value, Field(half, TxHex))
  }

  // ----- External signing -----

  /** A signature by the key provider, which never answers with an empty one. */
  function ExternalSign(awm: Awm, pub: string, source: Source, payload: Option<Json>): Result<string> {
    var signature :- awm.sign(pub, source, payload).OkOr(Network);
    if signature == "" then Err(Network) else Ok(signature)
  }

  function RecoverExternally(awm: Awm, req: Request): Result<Fields> {
    if req.keyToSign == Some(Backup) then
      if !Truth(Optional(req.halfSigned, TxHex)) then Err(BadRequest)
      else
        var full :- ExternalSign(awm, req.body.backupPub, Backup, Optional(req.halfSigned, TxHex));
        Ok(map[TxHex := JStr(full)])
    else
      var half :- ExternalSign(awm, req.body.userPub, User, Field(req.body.unsigned, TxHex));
      if req.keyToSign == Some(User) then Ok(map[TxHex := JStr(half)])
      else
        var full :- ExternalSign(awm, req.body.backupPub, Backup, Some(JStr(half)));
        Ok(map[TxHex := JStr(full)])
  }

  predicate External(awm: Awm, coin: Coin) {
    awm.externalSigning && (coin.isUtxo || coin.isEthLike)
  }

  // ----- The endpoint -----

  /** A private key for this step: fetched when this step signs with it, and then not empty. */
  function FetchKey(awm: Awm, pub: string, source: Source, keyToSign: Option<Source>): Result<string> {
    if keyToSign == Some(source.Other()) then Ok("")
    else awm.getKey(pub, source).OkOr(Network)
  }

  function Recover(awm: Awm, coin: Coin, req: Request): Result<Fields> {
    if !awm.recoveryMode then Err(Internal)
    else if req.keyToSign == Some(Backup) && !Truth(req.halfSigned) then Err(BadRequest)
    else if External(awm, coin) then
      if req.keyToSign == Some(Backup) && coin.isEvm && !FlatTxHex(req.halfSigned) then Err(BadRequest)
      else RecoverExternally(awm, req)
    else
      var userPrv :- FetchKey(awm, req.body.userPub, User, req.keyToSign);
      var backupPrv :- FetchKey(awm, req.body.backupPub, Backup, req.keyToSign);
      if req.keyToSign != Some(Backup) && userPrv == "" then Err(Internal)
      else if req.keyToSign != Some(User) && backupPrv == "" then Err(Internal)
      else if coin.isEvm then RecoverEthLike(coin, awm.env, req, userPrv, backupPrv)
      else if coin.isUtxo then RecoverUtxo(coin, req, userPrv, backupPrv)
      else Err(NotImplemented)
  }

  /** A recovery call over the wire: what the server signed, if the route lets it out. */
  function Call(awm: Awm, coin: Coin, req: Request): Result<Fields> {
    var tx :- Recover(awm, coin, req);
    Respond(tx)
  }

  /** One server signs with both keys. */
  function Single(awm: Awm, coin: Coin, body: Body): Result<Fields> {
    Call(awm, coin, Request(body, None, None))
  }

  /** The user's server signs first, and the backup's completes what it is handed. */
  function Split(user: Awm, backup: Awm, coin: Coin, body: Body): Result<Fields> {
    var half :- Call(user, coin, Request(body, Some(User), None));
    Call(backup, coin, Request(body, Some(Backup), Some(JObj(half))))
  }

  // ----- Each server needs its own key only -----

  /** Two servers that differ at most in the keys of `source`. */
  ghost predicate AlikeBut(a: Awm, b: Awm, source: Source) {
    && a.recoveryMode == b.recoveryMode && a.externalSigning == b.externalSigning && a.env == b.env
    && (forall pub :: a.getKey(pub, source.Other()) == b.getKey(pub, source.Other()))
    && (forall pub, x :: a.sign(pub, source.Other(), x) == b.sign(pub, source.Other(), x))
  }

  /** A call for one key comes out the same whatever the server holds of the other. */
  lemma UsesOnlyItsKey(a: Awm, b: Awm, coin: Coin, req: Request)
    requires req.keyToSign.Some? && AlikeBut(a, b, req.keyToSign.value.Other())
    ensures Call(a, coin, req) == Call(b, coin, req)
  {
    hide RecoverEthLike, RecoverUtxo, Truth, FlatTxHex, EthLikeHalfSigned;
    var source := req.keyToSign.value;
    var pub := if source == User then req.body.userPub else req.body.backupPub;
    var x := if source == User then Field(req.body.unsigned, TxHex) else Optional(req.halfSigned, TxHex);
    assert source.Other().Other() == source;
    assert a.getKey(pub, source) == b.getKey(pub, source) && a.sign(pub, source, x) == b.sign(pub, source, x);
  }

  // ----- Split recovery is single recovery -----

  /**
    The same keys on the two servers as on the one, in the same mode. The backup's server may
    run in another environment.
   */
  ghost predicate SameKeys(user: Awm, backup: Awm, single: Awm) {
    && user.recoveryMode == backup.recoveryMode == single.recoveryMode
    && user.externalSigning == backup.externalSigning == single.externalSigning
    && user.env == single.env
    && (forall pub :: user.getKey(pub, User) == single.getKey(pub, User))
    && (forall pub :: backup.getKey(pub, Backup) == single.getKey(pub, Backup))
    && (forall pub, x :: user.sign(pub, User, x) == single.sign(pub, User, x))
    && (forall pub, x :: backup.sign(pub, Backup, x) == single.sign(pub, Backup, x))
  }

  /** The half-signed transaction has the shape the backup's server checks for. */
  predicate HandsOver(user: Awm, coin: Coin, body: Body) {
    External(user, coin) ||
    var half := Recover(user, coin, Request(body, Some(User), None));
    half.Ok? &&
    if coin.isEvm then EthLikeHalfSigned(Some(JObj(half.value)))
    else FlatTxHex(Some(JObj(half.value))) && Truth(Field(body.unsigned, TxInfo))
  }

  lemma UserReplayProtection(env: EnvName, prv: string, body: Body)
    ensures Field(EthUserArgs(env, prv, body), ReplayProtectionOptions) ==
            Some(GetReplayProtectionOptions(env, Field(body.unsigned, ReplayProtectionOptions)))
  {
    hide EthPubs, WalletKeys, Priced, Optional, Coalesce, JString;
  }

  /** The replay protection that a user half records is what any server's backup signature uses. */
  lemma ReplayProtectionStable(coin: Coin, env: EnvName, env': EnvName, prv: string, body: Body, half: Fields)
    requires EthUserHalf(coin, env, prv, body) == Ok(half)
    ensures forall key :: EthBackupArgs(env', key, body, half) == EthBackupArgs(env, key, body, half)
    ensures Field(EthUserArgs(env, prv, body), ReplayProtectionOptions) ==
            Field(EthBackupPrebuild(env', half), ReplayProtectionOptions) ==
            Some(GetReplayProtectionOptions(env, Field(body.unsigned, ReplayProtectionOptions)))
  {
    hide Put, EthPubs, Extras, WalletKeys, EthUserArgs;
    var replay := GetReplayProtectionOptions(env, Field(body.unsigned, ReplayProtectionOptions));
    var signed := coin.signTransaction(EthUserArgs(env, prv, body)).value;
    UserReplayProtection(env, prv, body);
    ExtrasAt(env, signed, body.unsigned, false, Field(body.unsigned, ReplayProtectionOptions), ReplayProtectionOptions);
    assert !replay.JNull?;
    assert EthBackupPrebuild(env', half) == EthBackupPrebuild(env, half);
  }

  /** The terms of a recovery: what both halves of an EVM transaction must be signed under. */
  function Terms(body: Body, k: Key): Option<Json> {
    match k
    case Pubs => Some(EthPubs(body.unsigned))
    case KeyList => WalletKeys(body.unsigned)
    case WalletContractAddress => JString(body.walletContractAddress)
    case GasPrice => Some(GAS_PRICE)
    case GasLimit => Some(GAS_LIMIT)
    case _ => None
  }

  predicate IsTerm(k: Key) {
    k.Pubs? || k.KeyList? || k.WalletContractAddress? || k.GasPrice? || k.GasLimit?
  }

  lemma FixedTerms(env: EnvName, prv: string, body: Body, half: Fields, k: Key)
    requires IsTerm(k) && !k.KeyList? && !k.WalletContractAddress?
    ensures Field(EthUserFixedArgs(env, prv, body), k) == Terms(body, k)
    ensures Field(EthBackupFixedArgs(env, prv, body, half), k) == Terms(body, k)
  {
    hide EthPubs, WalletKeys, Priced, Optional, Coalesce, JString, GetReplayProtectionOptions, EthBackupPrebuild;
    match k
    case Pubs =>
    case GasPrice =>
    case GasLimit =>
  }

  lemma UserTerms(env: EnvName, prv: string, body: Body, k: Key)
    requires IsTerm(k)
    ensures Field(EthUserArgs(env, prv, body), k) == Terms(body, k)
  {
    hide EthPubs, WalletKeys, JString, Put, EthUserFixedArgs, Field;
    if !k.KeyList? && !k.WalletContractAddress? {
      FixedTerms(env, prv, body, map[], k);
    }
    var tx := body.unsigned;
    var a0 := EthUserFixedArgs(env, prv, body);
    var a1 := Put(a0, KeyList, WalletKeys(tx));
    var a2 := Put(a1, ExpireTime, Field(tx, ExpireTime));
    var a3 := Put(a2, SigningKeyNonce, Field(tx, SigningKeyNonce));
    PutAt(a0, KeyList, WalletKeys(tx), k);
    PutAt(a1, ExpireTime, Field(tx, ExpireTime), k);
    PutAt(a2, SigningKeyNonce, Field(tx, SigningKeyNonce), k);
    PutAt(a3, WalletContractAddress, JString(body.walletContractAddress), k);
  }

  lemma BackupTerms(env: EnvName, prv: string, body: Body, half: Fields, k: Key)
    requires IsTerm(k)
    ensures Field(EthBackupArgs(env, prv, body, half), k) == Terms(body, k)
  {
    hide EthPubs, WalletKeys, Optional, JString, Put, EthBackupFixedArgs, Field;
    if !k.KeyList? && !k.WalletContractAddress? {
      FixedTerms(env, prv, body, half, k);
    }
    var halfSigned := Field(half, HalfSigned);
    var a0 := EthBackupFixedArgs(env, prv, body, half);
    var a1 := Put(a0, KeyList, WalletKeys(body.unsigned));
    var a2 := Put(a1, ExpireTime, Optional(halfSigned, ExpireTime));
    var a3 := Put(a2, SigningKeyNonce, Optional(halfSigned, BackupKeyNonce));
    PutAt(a0, KeyList, WalletKeys(body.unsigned), k);
    PutAt(a1, ExpireTime, Optional(halfSigned, ExpireTime), k);
    PutAt(a2, SigningKeyNonce, Optional(halfSigned, BackupKeyNonce), k);
    PutAt(a3, WalletContractAddress, JString(body.walletContractAddress), k);
  }

  /**
    Both EVM halves are signed under the same terms: public keys, derivation, contract and
    fees, whichever server signs the second, and in whatever environment.
   */
  lemma SameTerms(env: EnvName, env': EnvName, prv: string, prv': string, body: Body, half: Fields, k: Key)
    requires IsTerm(k)
    ensures Field(EthUserArgs(env, prv, body), k) == Field(EthBackupArgs(env', prv', body, half), k)
  {
    hide Terms, EthUserArgs, EthBackupArgs;
    UserTerms(env, prv, body, k);
    BackupTerms(env', prv', body, half, k);
  }

  // The three branches, each over the user's half `h` (its key or signature) once that is there.

  /** EVM: the backup's server completes the half as the single server would. */
  lemma EthLikeSplits(coin: Coin, env: EnvName, env': EnvName, body: Body, userPrv: string, backupPrv: string,
                      none: string, none': string)
    ensures var single := RecoverEthLike(coin, env, Request(body, None, None), userPrv, backupPrv);
            var half := RecoverEthLike(coin, env, Request(body, Some(User), None), userPrv, none);
            (single.Ok? ==> half.Ok?) &&
            (half.Ok? ==>
               var full := RecoverEthLike(coin, env', Request(body, Some(Backup), Some(JObj(half.value))),
                                          none', backupPrv);
               if EthLikeHalfSigned(Some(JObj(half.value))) then full == single else full.Err?)
  {
    hide EthBackupArgs, EthUserArgs, EthLikeHalfSigned, NoRecipients;
    var half := RecoverEthLike(coin, env, Request(body, Some(User), None), userPrv, none);
    if half.Ok? {
      ReplayProtectionStable(coin, env, env', userPrv, body, half.value);
      assert EthBackupArgs(env', backupPrv, body, half.value) == EthBackupArgs(env, backupPrv, body, half.value);
    }
  }

  /** UTXO: likewise, when the half is flat and the transaction brings its `txInfo`. */
  lemma UtxoSplits(coin: Coin, body: Body, userPrv: string, backupPrv: string, none: string, none': string)
    ensures var single := RecoverUtxo(coin, Request(body, None, None), userPrv, backupPrv);
            var half := RecoverUtxo(coin, Request(body, Some(User), None), userPrv, none);
            (single.Ok? ==> half.Ok?) &&
            (half.Ok? ==>
               var full := RecoverUtxo(coin, Request(body, Some(Backup), Some(JObj(half.value))), none', backupPrv);
               if FlatTxHex(Some(JObj(half.value))) && Truth(Field(body.unsigned, TxInfo)) then full == single
               else full.Err?)
  {
    hide UtxoHalf, UtxoFull, Truth, FormattedOfflineVault;
  }

  /** External: the half is a bare signature, which the backup's server always accepts. */
  lemma ExternalSplits(user: Awm, backup: Awm, single: Awm, coin: Coin, body: Body)
    requires SameKeys(user, backup, single)
    ensures var one := RecoverExternally(single, Request(body, None, None));
            var half := RecoverExternally(user, Request(body, Some(User), None));
            (one.Ok? ==> half.Ok?) &&
            (half.Ok? ==>
               && FlatTxHex(Some(JObj(half.value)))
               && RecoverExternally(backup, Request(body, Some(Backup), Some(JObj(half.value)))) == one)
            && (one.Ok? ==> FlatTxHex(Some(JObj(one.value))))
  {
    var x := Field(body.unsigned, TxHex);
    assert user.sign(body.userPub, User, x) == single.sign(body.userPub, User, x);
    var half := RecoverExternally(user, Request(body, Some(User), None));
    if half.Ok? {
      var h := Some(half.value[TxHex]);
      assert backup.sign(body.backupPub, Backup, h) == single.sign(body.backupPub, Backup, h);
    }
  }

  /**
    Split recovery is single recovery. Two servers, one key each, the backup's in any
    environment, end with the signed transaction that one server with both keys ends with,
    exactly when the half-signed transaction has the shape the backup's server checks for.
   */
  lemma SplitEqualsSingle(user: Awm, backup: Awm, single: Awm, coin: Coin, body: Body, tx: Fields)
    requires SameKeys(user, backup, single)
    ensures Split(user, backup, coin, body) == Ok(tx) <==>
              Single(single, coin, body) == Ok(tx) && HandsOver(user, coin, body)
  {
    hide RecoverExternally, RecoverEthLike, RecoverUtxo, FlatTxHex, EthLikeHalfSigned;
    if External(user, coin) {
      ExternalSplits(user, backup, single, coin, body);
    } else {
      var u, b := user.getKey(body.userPub, User), backup.getKey(body.backupPub, Backup);
      assert u == single.getKey(body.userPub, User) && b == single.getKey(body.backupPub, Backup);
      if u.Some? && b.Some? {
        if coin.isEvm {
          EthLikeSplits(coin, user.env, backup.env, body, u.value, b.value, "", "");
        } else if coin.isUtxo {
          UtxoSplits(coin, body, u.value, b.value, "", "");
        }
      }
    }
  }

  /**
    The condition is needed. A UTXO transaction whose `txInfo` is null is signed by one
    server and refused by two.
   */
  lemma UtxoWithoutTxInfo() returns (awm: Awm, coin: Coin, body: Body)
    ensures coin.isUtxo && FormattedOfflineVault(body.unsigned) && SameKeys(awm, awm, awm)
    ensures Single(awm, coin, body).Ok? && Split(awm, awm, coin, body) == Err(BadRequest)
  {
    awm := Awm(true, false, Prod, (pub, source) => Some("prv"), (pub, source, x) => None);
    coin := Coin.Coin(false, false, true, args => Ok(map[TxHex := JStr("00")]));
    body := Body("u", "b", Some("g"), map[TxHex := JStr("00"), TxInfo := JNull, FeeInfo := JNull], None);
    var half: Fields := map[TxHex := JStr("00")];
    assert Recover(awm, coin, Request(body, Some(User), None)) == Ok(half);
    assert Recover(awm, coin, Request(body, None, None)) == Ok(half);
  }

  /** An EVM coin whose half is flat is signed by one server and refused by two. */
  lemma EvmFlatHalf() returns (awm: Awm, coin: Coin, body: Body)
    ensures coin.isEvm && coin.isEthLike && SameKeys(awm, awm, awm)
    ensures Single(awm, coin, body).Ok? && Split(awm, awm, coin, body) == Err(BadRequest)
  {
    hide EthUserArgs, EthBackupArgs, Extras;
    awm := Awm(true, false, Prod, (pub, source) => Some("prv"), (pub, source, x) => None);
    coin := Coin.Coin(true, true, false, args => Ok(map[TxHex := JStr("00")]));
    body := Body("u", "b", None, map[Recipients := JArr([JStr("to")])], None);
    var signed: Fields := map[TxHex := JStr("00")];
    var half := Extras(Prod, signed, body.unsigned, false, None);
    ExtrasAt(Prod, signed, body.unsigned, false, None, TxHex);
    ExtrasAt(Prod, signed, body.unsigned, false, None, HalfSigned);
    assert EthUserHalf(coin, Prod, "prv", body) == Ok(half);
    assert Recover(awm, coin, Request(body, Some(User), None)) == Ok(half);
    assert Recover(awm, coin, Request(body, None, None)) == Ok(signed);
  }

  // ----- Master Express -----

  datatype Reply = Signed(tx: Fields) | Pending(jobId: string)

  function ToFields(body: Body): Fields {
    Put(Put(map[UserPub := JStr(body.userPub), BackupPub := JStr(body.backupPub),
                UnsignedSweepPrebuildTx := JObj(body.unsigned)],
            BitgoPub, JString(body.bitgoPub)),
        WalletContractAddress, JString(body.walletContractAddress))
  }

  function RecoveryJob(coinName: string, body: Body): SubmitParams {
    SubmitParams("/api/" + coinName + "/multisig/recovery", ToFields(body), [User], MultisigRecovery)
  }

  /** Two servers sign in turn and never through the bridge; a single one may. */
  function RecoverOrSubmit(user: Awm, backup: Awm, separate: bool, bridge: Bridge,
                           coinName: string, coin: Coin, body: Body)
    : Result<Reply>
  {
    if separate then
      var tx :- Split(user, backup, coin, body);
      Ok(Signed(tx))
    else
      var job :- SubmitJob(bridge, RecoveryJob(coinName, body));
      if job.Some? then Ok(Pending(job.value))
      else
        var tx :- Single(user, coin, body);
        Ok(Signed(tx))
  }

  /** The request the AWM decodes from a bridge job's body. */
  function DecodeBody(m: Fields): Option<Body> {
    if || !IsString(Field(m, UserPub)) || !IsString(Field(m, BackupPub))
       || !IsObject(Field(m, UnsignedSweepPrebuildTx)) then None
    else if BitgoPub in m && !m[BitgoPub].JStr? then None
    else if WalletContractAddress in m && !m[WalletContractAddress].JStr? then None
    else
      Some(Body(m[UserPub].s, m[BackupPub].s, if BitgoPub in m then Some(m[BitgoPub].s) else None,
                m[UnsignedSweepPrebuildTx].fields,
                if WalletContractAddress in m then Some(m[WalletContractAddress].s) else None))
  }

  lemma BodyField(body: Body, k: Key)
    ensures Field(ToFields(body), k) ==
            match k
            case UserPub => Some(JStr(body.userPub))
            case BackupPub => Some(JStr(body.backupPub))
            case UnsignedSweepPrebuildTx => Some(JObj(body.unsigned))
            case BitgoPub => JString(body.bitgoPub)
            case WalletContractAddress => JString(body.walletContractAddress)
            case _ => None
  {
    hide Put, JString;
    var m: Fields := map[UserPub := JStr(body.userPub), BackupPub := JStr(body.backupPub),
                         UnsignedSweepPrebuildTx := JObj(body.unsigned)];
    PutAt(m, BitgoPub, JString(body.bitgoPub), k);
    PutAt(Put(m, BitgoPub, JString(body.bitgoPub)), WalletContractAddress, JString(body.walletContractAddress), k);
  }

  /** A job's body is decoded to what was packed in it. */
  lemma BodyRoundTrip(body: Body)
    ensures DecodeBody(ToFields(body)) == Some(body)
  {
    hide ToFields;
    BodyField(body, UserPub);
    BodyField(body, BackupPub);
    BodyField(body, UnsignedSweepPrebuildTx);
    BodyField(body, BitgoPub);
    BodyField(body, WalletContractAddress);
  }
}
