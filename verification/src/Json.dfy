/**
  JSON values and the JavaScript operators the handlers apply to them. An object field that
  is `undefined` is a field that is not there, as it is after a JSON round trip.
 */
module Json {
  import opened Prelude

  /** Field names: those the handlers mention, and `Other` for any name that is none of them. */
  datatype Key =
    | TxHex | TxInfo | FeeInfo | Coin | Amount | Signatures | HalfSigned | Recipients | Length
    | IsFullSigned | IsHalfSigned | IsLastSignature | IsEvmBasedCrossChainRecovery
    | GasPrice | GasLimit | FeesUsed | Eip1559 | MaxFeePerGas | MaxPriorityFeePerGas
    | BackupKeyNonce | NextContractSequenceId | SigningKeyNonce | ExpireTime
    | WalletContractAddress | ReplayProtectionOptions | Chain | Hardfork
    | XpubxWithDerivationPath | UserKey | BackupKey | BitgoKey | Xpub
    | Prv | Pubs | KeyList | TxPrebuild | AllowNonSegwitSigningWithoutPrevTx
    | UserPub | BackupPub | BitgoPub | UnsignedSweepPrebuildTx
    | SourceField | Pub | WalletPubs | WalletId | WpSubmitKind | WpSubmitParams
    | TxRequestId | BuildParams | Id | EncryptedPrv | MultisigType
    | Memo | Type | Value | TxFormat | Comment | Otp | Bulk
    | Other(name: string)

  datatype Json =
    | JNull
    | JBool(b: bool)
    | JNum(n: real)
    | JStr(s: string)
    | JArr(items: seq<Json>)
    | JObj(fields: Fields)

  type Fields = map<Key, Json>

  /** `x.key`, when `x` is an object. */
  function Field(m: Fields, key: Key): Option<Json> {
    if key in m then Some(m[key]) else None
  }

  /** `x?.key`. */
  function Optional(x: Option<Json>, key: Key): Option<Json> {
    if x.Some? && x.value.JObj? then Field(x.value.fields, key) else None
  }

  /** `x ? … : …` */
  predicate Truth(x: Option<Json>) {
    match x
    case None => false
    case Some(JNull) => false
    case Some(JBool(b)) => b
    case Some(JNum(n)) => n != 0.0
    case Some(JStr(s)) => s != ""
    case Some(_) => true
  }

  /** Exactly these values read as false. */
  lemma FalseValues(x: Option<Json>)
    ensures Truth(x) <==> x !in {None, Some(JNull), Some(JBool(false)), Some(JNum(0.0)), Some(JStr(""))}
  {
  }

  /** `x ?? fallback`. */
  function Coalesce(x: Option<Json>, fallback: Json): Json {
    if x.None? || x.value.JNull? then fallback else x.value
  }

  /** `{ ...m, key: x }`: an undefined value leaves the field absent. */
  function Put(m: Fields, key: Key, x: Option<Json>): Fields {
    match x
    case None => m - {key}
    case Some(v) => m[key := v]
  }

  lemma PutAt(m: Fields, key: Key, x: Option<Json>, k: Key)
    ensures Field(Put(m, key, x), k) == if k == key then x else Field(m, k)
  {
  }

  /** `x ?? null`, as JSON writes an undefined element of an array. */
  function Element(x: Option<Json>): Json {
    if x.None? then JNull else x.value
  }

  predicate IsString(x: Option<Json>) {
    x.Some? && x.value.JStr?
  }

  predicate IsObject(x: Option<Json>) {
    x.Some? && x.value.JObj?
  }

  /** Two objects with the same fields are the same object. */
  lemma SameFields(a: Fields, b: Fields)
    requires forall k :: Field(a, k) == Field(b, k)
    ensures a == b
  {
    assert forall k :: k in a <==> Field(a, k).Some?;
    assert forall k :: k in b <==> Field(b, k).Some?;
    assert a.Keys == b.Keys;
    forall k | k in a ensures a[k] == b[k] {
      assert Field(a, k) == Some(a[k]);
    }
  }
}
