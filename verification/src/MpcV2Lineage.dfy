/**
  Every blob an AWM hands out, under any order of initialize and round calls.

  A call may present any earlier blob again, so replays and forks are included, and it may
  even pair the data of one earlier blob with the wrapped key of another.
 */
module MpcV2Lineage {
  import opened Prelude
  import opened MpcV2Awm

  datatype Call =
    | Init(source: Source, keys: InitKeys)
    | RoundAt(dataFrom: nat, keyFrom: nat, req: RoundInput, seed: Seed)

  /** The blob a call is answered with, given the answers so far; `None` is an error. */
  function Answer(env: Env, answers: seq<Option<Blob>>, call: Call): Option<Blob> {
    match call
    case Init(source, keys) => Some(Initialize(env, source, keys).blob)
    case RoundAt(d, k, req, seed) =>
      if d < |answers| && k < |answers| && answers[d].Some? && answers[k].Some? then
        match Round(env, Blob(answers[d].value.encryptedData, answers[k].value.encryptedDataKey), req, seed)
        case Ok(response) => Some(response.blob)
        case Err(_) => None
      else None
  }

  /** The answers to a whole run of calls. */
  function Serve(env: Env, calls: seq<Call>): (answers: seq<Option<Blob>>)
    ensures |answers| == |calls|
  {
    if calls == [] then []
    else
      var answers := Serve(env, calls[..|calls| - 1]);
      answers + [Answer(env, answers, calls[|calls| - 1])]
  }

  lemma {:induction false} ServePrefix(env: Env, calls: seq<Call>, k: nat)
    requires k <= |calls|
    ensures Serve(env, calls[..k]) == Serve(env, calls)[..k]
  {
    if k == |calls| {
      assert calls[..k] == calls;
    } else {
      ServePrefix(env, calls[..|calls| - 1], k);
      assert calls[..|calls| - 1][..k] == calls[..k];
    }
  }

  lemma ServeAt(env: Env, calls: seq<Call>, k: nat)
    requires k < |calls|
    ensures Serve(env, calls)[k] == Answer(env, Serve(env, calls)[..k], calls[k])
  {
    ServePrefix(env, calls, k);
    ServePrefix(env, calls, k + 1);
    assert calls[..k + 1][..k] == calls[..k];
  }

  /** The key provider unwraps the wrapped data key of every initialize call to that data key. */
  ghost predicate Genuine(env: Env, calls: seq<Call>) {
    forall k | 0 <= k < |calls| && calls[k].Init? ::
      env.unwrapKey(calls[k].keys.wrappedKey) == Some(calls[k].keys.dataKey)
  }

  /** How many round calls lie between call `k` and the initialize call its data stems from. */
  function Depth(calls: seq<Call>, k: nat): nat
    requires k < |calls|
    decreases k
  {
    if calls[k].Init? || calls[k].dataFrom >= k then 0 else 1 + Depth(calls, calls[k].dataFrom)
  }

  /** The call at the start of the line that leads to call `k`. */
  function Root(calls: seq<Call>, k: nat): (root: nat)
    requires k < |calls|
    ensures root <= k
    decreases k
  {
    if calls[k].Init? || calls[k].dataFrom >= k then k else Root(calls, calls[k].dataFrom)
  }

  /** The first round call on the line that leads to call `k`. */
  function Opening(calls: seq<Call>, k: nat): (first: nat)
    requires k < |calls|
    ensures first <= k
    decreases k
  {
    if calls[k].Init? || calls[k].dataFrom >= k || Depth(calls, calls[k].dataFrom) == 0 then k
    else Opening(calls, calls[k].dataFrom)
  }

  /** The pins that a round-1 request fixes. */
  function PinsOf(req: RoundInput): (Option<GpgPin>, Option<GpgPin>) {
    (Some(GpgPin(req.bitgoGpgPub, BITGO)), Some(GpgPin(req.counterPartyGpgPub, PartyOf(req.source.Other()))))
  }

  /** What the blob answered to call `k` contains. */
  ghost predicate Contains(env: Env, calls: seq<Call>, k: nat, blob: Blob, st: RoundState)
    requires k < |calls|
  {
    var root := calls[Root(calls, k)];
    && root.Init?
    && env.unwrapKey(blob.encryptedDataKey) == Some(root.keys.dataKey)
    && (forall key :: env.decrypt(blob.encryptedData, key) == if key == root.keys.dataKey then Some(st) else None)
    && st.round == 1 + Depth(calls, k) <= 5
    && st.sourceGpgPrv == InitialState(root.source, root.keys).sourceGpgPrv
    && (st.sessionData.Some? <==> st.round > 1)
    && (if Depth(calls, k) == 0 then st.bitgoGpgPub == None && st.counterPartyGpgPub == None
        else
          && calls[Opening(calls, k)].RoundAt?
          && (st.bitgoGpgPub, st.counterPartyGpgPub) == PinsOf(calls[Opening(calls, k)].req))
  }

  /** How an answered round call relates to the line it extends. */
  ghost predicate Extends(env: Env, calls: seq<Call>, k: nat)
    requires k < |calls|
  {
    calls[k].RoundAt? ==>
      && calls[k].dataFrom < k
      && Serve(env, calls)[calls[k].dataFrom].Some?
      && calls[k].req.round == Depth(calls, k) == 1 + Depth(calls, calls[k].dataFrom)
      && calls[Opening(calls, k)].RoundAt?
      && (Truthy(calls[k].req.bitgoGpgPub) ==>
            calls[k].req.bitgoGpgPub == calls[Opening(calls, k)].req.bitgoGpgPub)
      && (Truthy(calls[k].req.counterPartyGpgPub) ==>
            calls[k].req.counterPartyGpgPub == calls[Opening(calls, k)].req.counterPartyGpgPub)
  }

  /** A round call leaves the counter one higher, the pins fixed, and everything else as it was. */
  lemma RoundStep(env: Env, blob: Blob, req: RoundInput, seed: Seed, key: string, st: RoundState)
    returns (st': RoundState)
    requires CipherLaw(env)
    requires env.unwrapKey(blob.encryptedDataKey) == Some(key) && env.decrypt(blob.encryptedData, key) == Some(st)
    requires Round(env, blob, req, seed).Ok?
    ensures var blob' := Round(env, blob, req, seed).value.blob;
            && blob'.encryptedDataKey == blob.encryptedDataKey
            && (forall key' :: env.decrypt(blob'.encryptedData, key') == if key' == key then Some(st') else None)
    ensures 1 <= req.round == st.round <= 4 && Round(env, blob, req, seed).value.round == st'.round == st.round + 1
    ensures st'.sourceGpgPrv == st.sourceGpgPrv && st'.sessionData.Some?
    ensures PinKey(st.bitgoGpgPub, req.bitgoGpgPub, BITGO) == Ok(st'.bitgoGpgPub)
    ensures PinKey(st.counterPartyGpgPub, req.counterPartyGpgPub, PartyOf(req.source.Other())) ==
            Ok(st'.counterPartyGpgPub)
  {
    var state := PinnedState(st, req).value;
    var (session, _) := Advance(env, req, state, seed).value;
    st' := state.(round := state.round + 1, sessionData := Some(env.sessionData(session)));
  }

  /**
    The lineage invariant. Whatever order the calls came in, an answered call's blob carries
    one more round than the successful rounds behind it, the pins of the first of those
    rounds, and the private key and data key of its own initialize call. A round call is
    answered only when it asks for exactly the next round, so a line has at most four.
   */
  lemma {:induction false} LineageInvariant(env: Env, calls: seq<Call>, k: nat) returns (st: RoundState)
    requires CipherLaw(env) && Genuine(env, calls)
    requires k < |calls| && Serve(env, calls)[k].Some?
    ensures Contains(env, calls, k, Serve(env, calls)[k].value, st)
    ensures Extends(env, calls, k)
    ensures Depth(calls, k) <= 4
    decreases k
  {
    ServeAt(env, calls, k);
    match calls[k]
    case Init(source, keys) =>
      st := InitialState(source, keys);
    case RoundAt(d, kf, req, seed) =>
      var data, key := Serve(env, calls)[d].value, Serve(env, calls)[kf].value;
      var before := LineageInvariant(env, calls, d);
      var _ := LineageInvariant(env, calls, kf);
      st := RoundStep(env, Blob(data.encryptedData, key.encryptedDataKey), req, seed,
                      calls[Root(calls, d)].keys.dataKey, before);
  }

  /** Progress is bounded: 5 minus the round counter drops by one on every answered round call. */
  lemma BoundedProgress(env: Env, calls: seq<Call>, k: nat)
    requires CipherLaw(env) && Genuine(env, calls)
    requires k < |calls| && calls[k].RoundAt? && Serve(env, calls)[k].Some?
    ensures var d := calls[k].dataFrom;
            && d < k && Serve(env, calls)[d].Some?
            && OpenBlob(env, Serve(env, calls)[k].value).Some?
            && OpenBlob(env, Serve(env, calls)[d].value).Some?
            && 0 <= 5 - OpenBlob(env, Serve(env, calls)[k].value).value.round
                 == 5 - OpenBlob(env, Serve(env, calls)[d].value).value.round - 1
  {
    var _ := LineageInvariant(env, calls, k);
    var _ := LineageInvariant(env, calls, calls[k].dataFrom);
  }

  /** A skipped, repeated or fifth round is rejected, whatever messages come with it. */
  lemma WrongRoundRejected(env: Env, calls: seq<Call>, k: nat)
    requires CipherLaw(env) && Genuine(env, calls)
    requires k < |calls| && calls[k].RoundAt? && calls[k].dataFrom < k
    requires calls[k].req.round != Depth(calls, calls[k].dataFrom) + 1 || Depth(calls, calls[k].dataFrom) == 4
    ensures Serve(env, calls)[k] == None
  {
    if Serve(env, calls)[k].Some? {
      var _ := LineageInvariant(env, calls, k);
    }
  }

  /** The data of one line is never answered under the data key of another. */
  lemma MixedKeysRejected(env: Env, calls: seq<Call>, k: nat)
    requires CipherLaw(env) && Genuine(env, calls)
    requires k < |calls| && calls[k].RoundAt? && calls[k].dataFrom < k && calls[k].keyFrom < k
    requires var data, key := calls[Root(calls, calls[k].dataFrom)], calls[Root(calls, calls[k].keyFrom)];
             data.Init? && key.Init? && data.keys.dataKey != key.keys.dataKey
    ensures Serve(env, calls)[k] == None
  {
    ServeAt(env, calls, k);
    if Serve(env, calls)[k].Some? {
      var _ := LineageInvariant(env, calls, calls[k].dataFrom);
      var _ := LineageInvariant(env, calls, calls[k].keyFrom);
    }
  }
}
