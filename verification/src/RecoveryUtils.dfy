/** Helpers for EVM recovery transactions: replay protection and what decorates a signed half. */
module RecoveryUtils {
  import opened Prelude
  import opened Json

  datatype EnvName = Prod | OtherEnv

  // Fee parameters of every EVM recovery signature.
  const GAS_PRICE := JNum(20000000000.0)
  const GAS_LIMIT := JNum(200000.0)
  const MAX_FEE_PER_GAS := JNum(20000000000.0)
  const MAX_PRIORITY_FEE_PER_GAS := JNum(10000000000.0)
  const EIP1559 := JObj(map[MaxFeePerGas := MAX_FEE_PER_GAS, MaxPriorityFeePerGas := MAX_PRIORITY_FEE_PER_GAS])

  function DefaultReplayProtection(env: EnvName): Json {
    JObj(map[Chain := JNum(if env == Prod then 1.0 else 560048.0), Hardfork := JStr("london")])
  }

  function GetReplayProtectionOptions(env: EnvName, given: Option<Json>): Json {
    Coalesce(given, DefaultReplayProtection(env))
  }

  /** The transaction's fields that are copied over the signed one's where they are truthy. */
  predicate Copied(key: Key) {
    key.FeeInfo? || key.Coin? || key.GasPrice? || key.GasLimit? || key.Eip1559? ||
    key.IsEvmBasedCrossChainRecovery? || key.Amount?
  }

  function FeesOf(tx: Fields): Json {
    JObj(Put(Put(map[], GasPrice, Field(tx, GasPrice)), GasLimit, Field(tx, GasLimit)))
  }

  /** What replay protection is in force: the given one, or the default of the environment. */
  function InForce(env: EnvName, given: Option<Json>): Json {
    if given.Some? && given.value != JNull then given.value
    else if env == Prod then JObj(map[Chain := JNum(1.0), Hardfork := JStr("london")])
    else JObj(map[Chain := JNum(560048.0), Hardfork := JStr("london")])
  }

  lemma ReplayProtectionInForce(env: EnvName, given: Option<Json>)
    ensures GetReplayProtectionOptions(env, given) == InForce(env, given)
  {
  }

  /** What the decorated transaction holds under each key. */
  function ExtraField(env: EnvName, signed: Fields, tx: Fields, isLast: bool, replay: Option<Json>, key: Key)
    : Option<Json>
  {
    match key
    case IsHalfSigned => if isLast then Field(signed, key) else Some(JBool(true))
    case BackupKeyNonce =>
      if isLast then Field(signed, key)
      else if BackupKeyNonce in tx then Some(tx[BackupKeyNonce]) else Field(tx, NextContractSequenceId)
    case WalletContractAddress => if isLast then Field(signed, key) else Field(tx, key)
    case ReplayProtectionOptions =>
      if isLast then Field(signed, key) else Some(InForce(env, replay))
    case IsFullSigned => if Truth(Field(signed, Signatures)) then Some(JBool(true)) else Field(signed, key)
    case FeesUsed =>
      if Truth(Field(tx, GasPrice)) && Truth(Field(tx, GasLimit)) then
        Some(JObj(map[GasPrice := tx[GasPrice], GasLimit := tx[GasLimit]]))
      else Field(signed, key)
    case _ => if Copied(key) && Truth(Field(tx, key)) then Field(tx, key) else Field(signed, key)
  }

  /** `if (c) d.key = x`. */
  function PutIf(c: bool, d: Fields, key: Key, x: Option<Json>): Fields {
    if c then Put(d, key, x) else d
  }

  lemma PutIfAt(c: bool, d: Fields, key: Key, x: Option<Json>, k: Key)
    ensures Field(PutIf(c, d, key, x), k) == if c && k == key then x else Field(d, k)
  {
  }

  /** `if (tx.key) d.key = tx.key`. */
  function CopyField(d: Fields, tx: Fields, key: Key): Fields {
    PutIf(Truth(Field(tx, key)), d, key, Field(tx, key))
  }

  lemma CopyFieldAt(d: Fields, tx: Fields, key: Key, k: Key)
    ensures Field(CopyField(d, tx, key), k) == if k == key && Truth(Field(tx, key)) then Field(tx, key) else Field(d, k)
  {
    hide Truth;
    PutIfAt(Truth(Field(tx, key)), d, key, Field(tx, key), k);
  }

  // The decoration in three stages, each described field by field.

  function CopyFees(d: Fields, tx: Fields): Fields {
    CopyField(CopyField(CopyField(CopyField(CopyField(
      d, tx, FeeInfo), tx, Coin), tx, GasPrice), tx, GasLimit), tx, Eip1559)
  }

  lemma CopyFeesAt(d: Fields, tx: Fields, k: Key)
    ensures Field(CopyFees(d, tx), k) ==
              if (k.FeeInfo? || k.Coin? || k.GasPrice? || k.GasLimit? || k.Eip1559?) && Truth(Field(tx, k))
              then Field(tx, k) else Field(d, k)
  {
    hide CopyField, Field, Truth;
    var d1 := CopyField(d, tx, FeeInfo);
    var d2 := CopyField(d1, tx, Coin);
    var d3 := CopyField(d2, tx, GasPrice);
    var d4 := CopyField(d3, tx, GasLimit);
    CopyFieldAt(d, tx, FeeInfo, k);
    CopyFieldAt(d1, tx, Coin, k);
    CopyFieldAt(d2, tx, GasPrice, k);
    CopyFieldAt(d3, tx, GasLimit, k);
    CopyFieldAt(d4, tx, Eip1559, k);
  }

  function CopyRest(d: Fields, tx: Fields): Fields {
    var fees := PutIf(Truth(Field(tx, GasPrice)) && Truth(Field(tx, GasLimit)), d, FeesUsed, Some(FeesOf(tx)));
    CopyField(CopyField(fees, tx, IsEvmBasedCrossChainRecovery), tx, Amount)
  }

  lemma CopyRestAt(d: Fields, tx: Fields, k: Key)
    ensures Field(CopyRest(d, tx), k) ==
              if (k.IsEvmBasedCrossChainRecovery? || k.Amount?) && Truth(Field(tx, k)) then Field(tx, k)
              else if k.FeesUsed? && Truth(Field(tx, GasPrice)) && Truth(Field(tx, GasLimit)) then Some(FeesOf(tx))
              else Field(d, k)
  {
    hide CopyField, PutIf, Field, Truth, FeesOf;
    var c := Truth(Field(tx, GasPrice)) && Truth(Field(tx, GasLimit));
    var fees := PutIf(c, d, FeesUsed, Some(FeesOf(tx)));
    PutIfAt(c, d, FeesUsed, Some(FeesOf(tx)), k);
    CopyFieldAt(fees, tx, IsEvmBasedCrossChainRecovery, k);
    CopyFieldAt(CopyField(fees, tx, IsEvmBasedCrossChainRecovery), tx, Amount, k);
  }

  function Nonce(tx: Fields): Option<Json> {
    if BackupKeyNonce in tx then Field(tx, BackupKeyNonce) else Field(tx, NextContractSequenceId)
  }

  function MarkHalfSigned(env: EnvName, d: Fields, tx: Fields, replay: Option<Json>): Fields {
    Put(Put(Put(Put(d, IsHalfSigned, Some(JBool(true))), BackupKeyNonce, Nonce(tx)),
            WalletContractAddress, Field(tx, WalletContractAddress)),
        ReplayProtectionOptions, Some(GetReplayProtectionOptions(env, replay)))
  }

  lemma MarkHalfSignedAt(env: EnvName, d: Fields, tx: Fields, replay: Option<Json>, k: Key)
    ensures Field(MarkHalfSigned(env, d, tx, replay), k) ==
              match k
              case IsHalfSigned => Some(JBool(true))
              case BackupKeyNonce => Nonce(tx)
              case WalletContractAddress => Field(tx, k)
              case ReplayProtectionOptions => Some(GetReplayProtectionOptions(env, replay))
              case _ => Field(d, k)
  {
    hide Put, Field, Nonce, GetReplayProtectionOptions;
    var d1 := Put(d, IsHalfSigned, Some(JBool(true)));
    var d2 := Put(d1, BackupKeyNonce, Nonce(tx));
    var d3 := Put(d2, WalletContractAddress, Field(tx, WalletContractAddress));
    PutAt(d, IsHalfSigned, Some(JBool(true)), k);
    PutAt(d1, BackupKeyNonce, Nonce(tx), k);
    PutAt(d2, WalletContractAddress, Field(tx, WalletContractAddress), k);
    PutAt(d3, ReplayProtectionOptions, Some(GetReplayProtectionOptions(env, replay)), k);
  }

  function Extras(env: EnvName, signed: Fields, tx: Fields, isLast: bool, replay: Option<Json>): Fields {
    var d := PutIf(Truth(Field(signed, Signatures)), signed, IsFullSigned, Some(JBool(true)));
    var d := CopyRest(CopyFees(d, tx), tx);
    if isLast then d else MarkHalfSigned(env, d, tx, replay)
  }

  /** The stages before the marks, taken together. */
  lemma CopiedAt(signed: Fields, tx: Fields, k: Key)
    ensures var d := PutIf(Truth(Field(signed, Signatures)), signed, IsFullSigned, Some(JBool(true)));
            Field(CopyRest(CopyFees(d, tx), tx), k) ==
              if k.IsFullSigned? && Truth(Field(signed, Signatures)) then Some(JBool(true))
              else if k.FeesUsed? && Truth(Field(tx, GasPrice)) && Truth(Field(tx, GasLimit)) then Some(FeesOf(tx))
              else if Copied(k) && Truth(Field(tx, k)) then Field(tx, k) else Field(signed, k)
  {
    hide PutIf, CopyFees, CopyRest, Field, Truth, FeesOf;
    var c := Truth(Field(signed, Signatures));
    var d := PutIf(c, signed, IsFullSigned, Some(JBool(true)));
    PutIfAt(c, signed, IsFullSigned, Some(JBool(true)), k);
    CopyFeesAt(d, tx, k);
    CopyRestAt(CopyFees(d, tx), tx, k);
  }

  lemma NonceOf(tx: Fields)
    ensures Nonce(tx) == if BackupKeyNonce in tx then Some(tx[BackupKeyNonce]) else Field(tx, NextContractSequenceId)
  {
  }

  lemma FeesAre(tx: Fields)
    ensures Truth(Field(tx, GasPrice)) && Truth(Field(tx, GasLimit)) ==>
              && GasPrice in tx && GasLimit in tx
              && FeesOf(tx) == JObj(map[GasPrice := tx[GasPrice], GasLimit := tx[GasLimit]])
  {
  }

  /** Field by field, the decoration is the one described. */
  lemma ExtrasAt(env: EnvName, signed: Fields, tx: Fields, isLast: bool, replay: Option<Json>, k: Key)
    ensures Field(Extras(env, signed, tx, isLast, replay), k) == ExtraField(env, signed, tx, isLast, replay, k)
  {
    NonceOf(tx);
    FeesAre(tx);
    ReplayProtectionInForce(env, replay);
    hide PutIf, CopyFees, CopyRest, MarkHalfSigned, Field, Truth, FeesOf, GetReplayProtectionOptions, InForce, Nonce;
    var d := PutIf(Truth(Field(signed, Signatures)), signed, IsFullSigned, Some(JBool(true)));
    CopiedAt(signed, tx, k);
    MarkHalfSignedAt(env, CopyRest(CopyFees(d, tx), tx), tx, replay, k);
  }

  /** Decorates a signed transaction step by step. */
  method AddEthLikeRecoveryExtras(env: EnvName, signedTx: Fields, transaction: Fields, isLastSignature: bool,
                                  replayProtectionOptions: Option<Json>)
    returns (decorated: Fields)
    ensures decorated == Extras(env, signedTx, transaction, isLastSignature, replayProtectionOptions)
  {
    hide Put, Field, Truth, FeesOf, GetReplayProtectionOptions;
    decorated := signedTx;
    if Truth(Field(signedTx, Signatures)) {
      decorated := Put(decorated, IsFullSigned, Some(JBool(true)));
    }
    ghost var marked := decorated;
    if Truth(Field(transaction, FeeInfo)) {
      decorated := Put(decorated, FeeInfo, Field(transaction, FeeInfo));
    }
    if Truth(Field(transaction, Coin)) {
      decorated := Put(decorated, Coin, Field(transaction, Coin));
    }
    if Truth(Field(transaction, GasPrice)) {
      decorated := Put(decorated, GasPrice, Field(transaction, GasPrice));
    }
    if Truth(Field(transaction, GasLimit)) {
      decorated := Put(decorated, GasLimit, Field(transaction, GasLimit));
    }
    if Truth(Field(transaction, Eip1559)) {
      decorated := Put(decorated, Eip1559, Field(transaction, Eip1559));
    }
    assert decorated == CopyFees(marked, transaction);
    if Truth(Field(transaction, GasPrice)) && Truth(Field(transaction, GasLimit)) {
      decorated := Put(decorated, FeesUsed, Some(FeesOf(transaction)));
    }
    if Truth(Field(transaction, IsEvmBasedCrossChainRecovery)) {
      decorated := Put(decorated, IsEvmBasedCrossChainRecovery, Field(transaction, IsEvmBasedCrossChainRecovery));
    }
    if Truth(Field(transaction, Amount)) {
      decorated := Put(decorated, Amount, Field(transaction, Amount));
    }
    assert decorated == CopyRest(CopyFees(marked, transaction), transaction);
    if !isLastSignature {
      decorated := Put(decorated, IsHalfSigned, Some(JBool(true)));
      decorated := Put(decorated, BackupKeyNonce, Nonce(transaction));
      decorated := Put(decorated, WalletContractAddress, Field(transaction, WalletContractAddress));
      decorated := Put(decorated, ReplayProtectionOptions,
                       Some(GetReplayProtectionOptions(env, replayProtectionOptions)));
    }
  }
}
