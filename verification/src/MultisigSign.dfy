/**
  Multisig sign jobs: packing what the AWM signs and what happens next into one job body, and
  taking the two apart again.
 */
module MultisigSign {
  import opened Prelude
  import opened Json
  import opened AsyncUtils

  datatype SignBody = SignBody(source: Source, pub: string, txPrebuild: Json, walletPubs: Option<seq<string>>)

  datatype SubmitKind = SendMany | Accelerate | ConsolidateUnspents {
    function Name(): string {
      match this
      case SendMany => "sendMany"
      case Accelerate => "accelerate"
      case ConsolidateUnspents => "consolidateUnspents"
    }
  }

  /** What the worker needs once the transaction is signed. */
  datatype JobContext = JobContext(walletId: string, kind: SubmitKind, params: Json)

  function SourceName(source: Source): string {
    if source == User then "user" else "backup"
  }

  function BuildSignBody(source: Source, keychainPub: Option<string>, txPrebuilt: Json, walletPubs: Option<seq<string>>)
    : Result<SignBody>
  {
    if !Truthy(keychainPub) then Err(BadRequest)
    else Ok(SignBody(source, keychainPub.value, txPrebuilt, walletPubs))
  }

  function Strings(ss: seq<string>): Json {
    JArr(seq(|ss|, i requires 0 <= i < |ss| => JStr(ss[i])))
  }

  function SignFields(b: SignBody): Fields {
    var m: Fields := map[SourceField := JStr(SourceName(b.source)), Pub := JStr(b.pub), TxPrebuild := b.txPrebuild];
    if b.walletPubs.Some? then m[WalletPubs := Strings(b.walletPubs.value)] else m
  }

  function ContextFields(c: JobContext): Fields {
    map[WalletId := JStr(c.walletId), WpSubmitKind := JStr(c.kind.Name()), WpSubmitParams := c.params]
  }

  /** `{ ...signBody, ...jobContext }`. */
  function JobBody(b: SignBody, c: JobContext): Fields {
    SignFields(b) + ContextFields(c)
  }

  function SignJob(coinName: string, b: SignBody, c: JobContext): SubmitParams {
    SubmitParams("/api/" + coinName + "/multisig/sign", JobBody(b, c), [b.source], Operation.MultisigSign)
  }

  function ParseKind(x: Option<Json>): Option<SubmitKind> {
    if x == Some(JStr("sendMany")) then Some(SendMany)
    else if x == Some(JStr("accelerate")) then Some(Accelerate)
    else if x == Some(JStr("consolidateUnspents")) then Some(ConsolidateUnspents)
    else None
  }

  /** `typeof x === 'object'`, null aside: a record or an array. */
  predicate ObjectLike(x: Json) {
    x.JObj? || x.JArr?
  }

  function ParseContext(body: Option<Fields>): Result<JobContext> {
    if body.None? || !IsString(Field(body.value, WalletId)) then Err(Internal)
    else
      var m := body.value;
      var kind :- ParseKind(Field(m, WpSubmitKind)).OkOr(Internal);
      if WpSubmitParams !in m || !ObjectLike(m[WpSubmitParams]) then Err(Internal)
      else Ok(JobContext(m[WalletId].s, kind, m[WpSubmitParams]))
  }

  lemma KindNames(kind: SubmitKind, x: Option<Json>)
    ensures ParseKind(x) == Some(kind) <==> x == Some(JStr(kind.Name()))
  {
    assert |"sendMany"| == 8 && |"accelerate"| == 10 && |"consolidateUnspents"| == 19;
  }

  /** A body parses to a context exactly when it holds that context's three fields. */
  lemma ParsesWhatItHolds(m: Fields, c: JobContext)
    ensures ParseContext(Some(m)) == Ok(c) <==>
              ObjectLike(c.params) && forall k | k in ContextFields(c) :: Field(m, k) == Some(ContextFields(c)[k])
  {
    hide ParseKind;
    KindNames(c.kind, Field(m, WpSubmitKind));
    assert ContextFields(c).Keys == {WalletId, WpSubmitKind, WpSubmitParams};
    if forall k | k in ContextFields(c) :: Field(m, k) == Some(ContextFields(c)[k]) {
      assert Field(m, WalletId) == Some(JStr(c.walletId));
      assert Field(m, WpSubmitKind) == Some(JStr(c.kind.Name()));
      assert Field(m, WpSubmitParams) == Some(c.params);
    }
  }

  /** Parsing undoes packing, whatever the transaction, for parameters that are an object. */
  lemma ParseAfterPack(b: SignBody, c: JobContext)
    ensures ParseContext(Some(JobBody(b, c))) == Ok(c) <==> ObjectLike(c.params)
  {
    hide SignFields, ContextFields;
    ParsesWhatItHolds(JobBody(b, c), c);
  }

  // ----- What the AWM is asked to sign -----

  /** The fields of a request body that the AWM's sign handler reads. */
  datatype SignRequest = SignRequest(
    source: Option<Json>, pub: Option<Json>, txPrebuild: Option<Json>, walletPubs: Option<Json>)

  function ReadSignRequest(m: Fields): SignRequest {
    SignRequest(Field(m, SourceField), Field(m, Pub), Field(m, TxPrebuild), Field(m, WalletPubs))
  }

  /** A sign job asks the AWM for what the direct call asks it for. */
  lemma SameRequest(b: SignBody, c: JobContext)
    ensures ReadSignRequest(JobBody(b, c)) == ReadSignRequest(SignFields(b))
  {
    hide SignFields;
    assert ContextFields(c).Keys == {WalletId, WpSubmitKind, WpSubmitParams};
  }
}
