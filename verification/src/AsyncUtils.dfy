/** Jobs on the bridge: how one is submitted, and how an AWM's answer comes back in it. */
module AsyncUtils {
  import opened Prelude
  import opened Json

  datatype Operation = MultisigSign | MultisigKeygen | MultisigRecovery | MpcSign | MpcKeygen

  datatype SubmitParams = SubmitParams(path: string, body: Fields, sources: seq<Source>, operation: Operation)

  /** The bridge as Master Express sees it; `submit` answers with a job id. */
  datatype Bridge = Bridge(enabled: bool, connected: bool, submit: SubmitParams -> Option<string>)

  /** The id of the submitted job, or nothing when async mode is off. */
  function SubmitJob(bridge: Bridge, params: SubmitParams): Result<Option<string>> {
    if !bridge.enabled then Ok(None)
    else if !bridge.connected then Err(Internal)
    else
      var id :- bridge.submit(params).OkOr(Network);
      Ok(Some(id))
  }

  /** An AWM's HTTP answer as the bridge keeps it. */
  datatype AwmResponse = AwmResponse(status: int, body: Fields, error: Option<string>)

  function ParseAwmResponseBody(r: Option<AwmResponse>): Result<Fields> {
    if r.None? || r.value.status >= 400 || Truthy(r.value.error) then Err(Internal) else Ok(r.value.body)
  }

  /** The bridge ran a handler and keeps what it answered. */
  function Answered(r: Result<Fields>): AwmResponse {
    match r
    case Ok(body) => AwmResponse(200, body, None)
    case Err(e) => AwmResponse(if e == BadRequest || e == Validation then 400 else 500, map[], Some("error"))
  }

  /** The least a signed transaction must have: a `txHex` string or a `halfSigned` object. */
  predicate SignedSchema(body: Fields) {
    && (TxHex in body ==> body[TxHex].JStr?)
    && (HalfSigned in body ==> body[HalfSigned].JObj?)
    && (TxHex in body || HalfSigned in body)
  }

  /** The schema by the two fields it looks at. */
  lemma SchemaExactly(body: Fields)
    ensures SignedSchema(body) <==>
              match (Field(body, TxHex), Field(body, HalfSigned))
              case (Some(JStr(_)), None) => true
              case (Some(JStr(_)), Some(JObj(_))) => true
              case (None, Some(JObj(_))) => true
              case _ => false
  {
  }

  /** The signed transaction in an AWM's answer. */
  function ParseSignedTx(response: Option<AwmResponse>): Result<Fields> {
    var body :- ParseAwmResponseBody(response);
    if SignedSchema(body) then Ok(body) else Err(Validation)
  }

  /** A worker gets out of a job what the AWM's handler signed, if it has the shape. */
  lemma SignedComesThrough(r: Result<Fields>, tx: Fields)
    ensures ParseSignedTx(Some(Answered(r))) == Ok(tx) <==> r == Ok(tx) && SignedSchema(tx)
  {
  }
}
