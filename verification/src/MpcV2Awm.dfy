/**
  The ECDSA MPCv2 key generation endpoints of an advanced wallet manager (AWM).

  The handlers keep nothing between calls. Everything one party of the DKG knows travels
  in a blob, encrypted under a data key that the key provider wrapped.
 */
module MpcV2Awm {
  import opened Prelude

  // Party numbers of the DKLS protocol.
  const USER := 0
  const BACKUP := 1
  const BITGO := 2

  function PartyOf(source: Source): int {
    if source == User then USER else BACKUP
  }

  // ----- Messages -----

  datatype Signed = Signed(message: string, signature: string)
  datatype Sealed = Sealed(encryptedMessage: string, signature: string)

  datatype BroadcastMessage<T> = Broadcast(from: int, payload: T)
  datatype P2PMessage<T> = P2P(from: int, to: int, payload: T, commitment: Option<string>)

  /** One round's messages, entering or leaving a party. */
  datatype Messages<S, T> = Mail(broadcasts: seq<BroadcastMessage<S>>, p2ps: seq<P2PMessage<T>>)

  // Messages on their way are signed and encrypted; a party opens them and seals its own.
  type Broadcast = BroadcastMessage<Signed>
  type P2P = P2PMessage<Sealed>
  type Mail = Messages<Signed, Sealed>
  type PlainBroadcast = BroadcastMessage<string>
  type PlainMail = Messages<string, string>

  /** The `{ bitgo, counterParty }` pair of a request or a response; either may be missing. */
  datatype Pair<+T> = Pair(bitgo: Option<T>, counterParty: Option<T>) {
    predicate Complete() { bitgo.Some? && counterParty.Some? }

    /** `Object.values` of the pair. */
    function Values(): seq<T> {
      (if bitgo.Some? then [bitgo.value] else []) +
      (if counterParty.Some? then [counterParty.value] else [])
    }
  }

  // ----- State -----

  datatype PartyKey = PartyKey(gpgKey: string, partyId: int)

  /** A pinned GPG public key. Round 1 pins whatever it was given, so the key may be absent. */
  datatype GpgPin = GpgPin(gpgKey: Option<string>, partyId: int)

  datatype SessionData = SessionData(dkgSessionBytes: string, chainCodeCommitment: Option<string>)

  /** A live DKG session object of the MPC library. */
  datatype Session = Session(handle: string)

  datatype RoundState = RoundState(
    round: int,
    sourceGpgPrv: PartyKey,
    bitgoGpgPub: Option<GpgPin>,
    counterPartyGpgPub: Option<GpgPin>,
    sessionData: Option<SessionData>)

  datatype Blob = Blob(encryptedData: string, encryptedDataKey: string)

  /**
    Everything outside the handlers: the key provider, the symmetric cipher, the DKLS
    library and its GPG message layer. A function that may throw returns an option.
   */
  datatype Env = Env(
    unwrapKey: string -> Option<string>,
    encrypt: (RoundState, string, Seed) -> string,
    decrypt: (string, string) -> Option<RoundState>,
    initDkg: (int, Seed) -> Option<(Session, PlainBroadcast)>,
    restore: (int, SessionData) -> Option<Session>,
    sessionData: Session -> SessionData,
    partyOf: Session -> int,
    openMail: (Mail, seq<GpgPin>, PartyKey) -> Option<PlainMail>,
    sealMail: (PlainMail, seq<GpgPin>, PartyKey, Seed) -> Option<Mail>,
    handle: (Session, PlainMail, Seed) -> Option<(Session, PlainMail)>,
    keyShare: Session -> Option<string>,
    commonKeychain: string -> string)

  /** The chain code commitment is turned into bytes before a round restores its session. */
  function Normalize(d: SessionData): SessionData {
    d.(chainCodeCommitment := Some(if d.chainCodeCommitment.Some? then d.chainCodeCommitment.value else ""))
  }

  /** The blob cipher gives back what it sealed, under its own key and under no other. */
  ghost predicate CipherLaw(env: Env) {
    forall st, key, seed, key' ::
      env.decrypt(env.encrypt(st, key, seed), key') == if key' == key then Some(st) else None
  }

  /** A session's exported data restores that session for the party that owns it. */
  ghost predicate SessionLaw(env: Env) {
    && (forall s :: env.restore(env.partyOf(s), env.sessionData(s)) == Some(s))
    && (forall s ::
          var d := env.sessionData(s);
          var commitment := if d.chainCodeCommitment.Some? then d.chainCodeCommitment.value else "";
          env.restore(env.partyOf(s), SessionData(d.dkgSessionBytes, Some(commitment))) == Some(s))
    && (forall p, seed :: env.initDkg(p, seed).Some? ==> env.partyOf(env.initDkg(p, seed).value.0) == p)
    && (forall s, m, seed :: env.handle(s, m, seed).Some? ==>
          env.partyOf(env.handle(s, m, seed).value.0) == env.partyOf(s))
  }

  /** At most one broadcast, and either no p2p message or one to each other party, all from `p`. */
  predicate AddressedBy<S, T>(p: int, m: Messages<S, T>) {
    && (|m.broadcasts| == 0 || (|m.broadcasts| == 1 && m.broadcasts[0].from == p))
    && (|m.p2ps| == 0 ||
        (&& |m.p2ps| == 2
         && m.p2ps[0].from == p && m.p2ps[1].from == p
         && {m.p2ps[0].to, m.p2ps[1].to} == {USER, BACKUP, BITGO} - {p}))
  }

  /** What the DKLS library promises about addressing; sealing a message keeps its addresses. */
  ghost predicate AddressLaw(env: Env) {
    && (forall p, seed :: env.initDkg(p, seed).Some? ==> env.initDkg(p, seed).value.1.from == p)
    && (forall s, m, seed :: env.handle(s, m, seed).Some? ==>
          AddressedBy(env.partyOf(s), env.handle(s, m, seed).value.1))
    && (forall m, pins, prv, seed :: env.sealMail(m, pins, prv, seed).Some? ==>
          SameAddresses(m, env.sealMail(m, pins, prv, seed).value))
  }

  predicate SameAddresses(m: PlainMail, sent: Mail) {
    && |sent.broadcasts| == |m.broadcasts|
    && |sent.p2ps| == |m.p2ps|
    && (forall i | 0 <= i < |m.broadcasts| :: sent.broadcasts[i].from == m.broadcasts[i].from)
    && (forall i | 0 <= i < |m.p2ps| :: sent.p2ps[i].from == m.p2ps[i].from && sent.p2ps[i].to == m.p2ps[i].to)
  }

  ghost predicate Lawful(env: Env) {
    CipherLaw(env) && SessionLaw(env) && AddressLaw(env)
  }

  function OpenBlob(env: Env, blob: Blob): Option<RoundState> {
    var key :- env.unwrapKey(blob.encryptedDataKey);
    env.decrypt(blob.encryptedData, key)
  }

  // ----- Initialize -----

  /** The fresh keys an initialize call draws: its GPG key pair and its data key. */
  datatype InitKeys = InitKeys(gpgPub: string, gpgPrv: string, dataKey: string, wrappedKey: string, seed: Seed)

  datatype InitResponse = InitResponse(gpgPub: string, blob: Blob)

  function InitialState(source: Source, keys: InitKeys): RoundState {
    RoundState(1, PartyKey(keys.gpgPrv, PartyOf(source)), None, None, None)
  }

  function Initialize(env: Env, source: Source, keys: InitKeys): InitResponse {
    InitResponse(keys.gpgPub,
                 Blob(env.encrypt(InitialState(source, keys), keys.dataKey, keys.seed), keys.wrappedKey))
  }

  // ----- Round -----

  datatype RoundInput = RoundInput(
    source: Source,
    round: int,
    bitgoGpgPub: Option<string>,
    counterPartyGpgPub: Option<string>,
    broadcastMessages: Option<Pair<Broadcast>>,
    p2pMessages: Option<Pair<P2P>>)

  datatype RoundResponse = RoundResponse(
    round: int,
    blob: Blob,
    broadcastMessage: Option<Broadcast>,
    p2pMessages: Option<Pair<P2P>>)

  predicate WellFormed(req: RoundInput) {
    && 1 <= req.round <= 4
    && (req.round > 1 ==> req.broadcastMessages.Some? || req.p2pMessages.Some?)
    && (req.broadcastMessages.Some? ==> req.broadcastMessages.value.Complete())
    && (req.p2pMessages.Some? ==> req.p2pMessages.value.Complete())
  }

  function IncomingMail(req: RoundInput): Mail {
    Mail(if req.broadcastMessages.Some? then req.broadcastMessages.value.Values() else [],
         if req.p2pMessages.Some? then req.p2pMessages.value.Values() else [])
  }

  /** Pins a key on first use; afterwards a key that is given must be the pinned one. */
  function PinKey(pinned: Option<GpgPin>, given: Option<string>, party: int): Result<Option<GpgPin>> {
    if pinned.None? then Ok(Some(GpgPin(given, party)))
    else if Truthy(given) && pinned.value.gpgKey != given then Err(Validation)
    else Ok(pinned)
  }

  /** `Object.values` of a missing commitment throws, so every outgoing p2p message needs one. */
  predicate HasCommitments(m: PlainMail) {
    forall x | x in m.p2ps :: x.commitment.Some?
  }

  /** The session after a round and the messages it produced. */
  function Advance(env: Env, req: RoundInput, state: RoundState, seed: Seed): Option<(Session, PlainMail)>
    requires state.bitgoGpgPub.Some? && state.counterPartyGpgPub.Some?
    requires req.round != 1 ==> state.sessionData.Some?
  {
    if req.round == 1 then
      var (session, broadcast) :- env.initDkg(PartyOf(req.source), seed);
      Some((session, Mail([broadcast], [])))
    else
      var session :- env.restore(PartyOf(req.source), Normalize(state.sessionData.value));
      var plain :- env.openMail(IncomingMail(req), [state.bitgoGpgPub.value, state.counterPartyGpgPub.value],
                                state.sourceGpgPrv);
      env.handle(session, plain, seed)
  }

  /** The first p2p message to BitGo and the first to anyone else. */
  function SplitP2Ps(p2ps: seq<P2P>): Option<Pair<P2P>> {
    if p2ps == [] then None else Some(Pair(FindP2P(p2ps, true), FindP2P(p2ps, false)))
  }

  function FindP2P(p2ps: seq<P2P>, toBitgo: bool): Option<P2P> {
    if p2ps == [] then None
    else if (p2ps[0].to == BITGO) == toBitgo then Some(p2ps[0])
    else FindP2P(p2ps[1..], toBitgo)
  }

  function First<T>(s: seq<T>): Option<T> {
    if s == [] then None else Some(s[0])
  }

  /** The stored state with both keys pinned, if the request fits it. */
  function PinnedState(stored: RoundState, req: RoundInput): (r: Result<RoundState>)
    ensures r.Ok? ==> && r.value.bitgoGpgPub.Some? && r.value.counterPartyGpgPub.Some?
                      && r.value.round == req.round
                      && (req.round > 1 ==> r.value.sessionData.Some?)
  {
    var bitgoPin :- PinKey(stored.bitgoGpgPub, req.bitgoGpgPub, BITGO);
    var counterPin :- PinKey(stored.counterPartyGpgPub, req.counterPartyGpgPub, PartyOf(req.source.Other()));
    if stored.round != req.round then Err(Validation)
    else if stored.sessionData.None? && req.round > 1 then Err(Validation)
    else Ok(stored.(bitgoGpgPub := bitgoPin, counterPartyGpgPub := counterPin))
  }

  /** Seals the outgoing messages and the next state. */
  function Respond(env: Env, state: RoundState, session: Session, outgoing: PlainMail,
                   key: string, wrappedKey: string, seed: Seed): Result<RoundResponse>
    requires state.bitgoGpgPub.Some? && state.counterPartyGpgPub.Some?
  {
    if !HasCommitments(outgoing) then Err(Internal)
    else
      var sent :- env.sealMail(outgoing, [state.bitgoGpgPub.value, state.counterPartyGpgPub.value],
                               state.sourceGpgPrv, seed).OkOr(Internal);
      var next := state.(round := state.round + 1, sessionData := Some(env.sessionData(session)));
      Ok(RoundResponse(next.round, Blob(env.encrypt(next, key, seed), wrappedKey),
                       First(sent.broadcasts), SplitP2Ps(sent.p2ps)))
  }

  /** The specification of the round endpoint. */
  function Round(env: Env, blob: Blob, req: RoundInput, seed: Seed): Result<RoundResponse> {
    if !WellFormed(req) then Err(BadRequest)
    else
      var key :- env.unwrapKey(blob.encryptedDataKey).OkOr(Internal);
      var stored :- env.decrypt(blob.encryptedData, key).OkOr(Internal);
      var state :- PinnedState(stored, req);
      var (session, outgoing) :- Advance(env, req, state, seed).OkOr(Internal);
      Respond(env, state, session, outgoing, key, blob.encryptedDataKey, seed)
  }

  predicate HoldsBoth<T>(p: Option<Pair<T>>) {
    p.Some? ==> p.value.bitgo.Some? && p.value.counterParty.Some?
  }

  /** A call is malformed exactly when its round is none of the four, or a message is missing. */
  lemma Malformed(env: Env, blob: Blob, req: RoundInput, seed: Seed)
    ensures Round(env, blob, req, seed) == Err(BadRequest) <==>
              || req.round !in {1, 2, 3, 4}
              || (req.round > 1 && req.broadcastMessages.None? && req.p2pMessages.None?)
              || !HoldsBoth(req.broadcastMessages) || !HoldsBoth(req.p2pMessages)
  {
    hide Advance, Respond;
    if WellFormed(req) {
      NeverMalformed(env, blob, req, seed);
    }
  }

  lemma NeverMalformed(env: Env, blob: Blob, req: RoundInput, seed: Seed)
    requires WellFormed(req)
    ensures Round(env, blob, req, seed) != Err(BadRequest)
  {
  }

  // ----- Finalize -----

  datatype FinalizeInput = FinalizeInput(
    source: Source,
    coin: string,
    broadcastMessages: Pair<Broadcast>,
    bitgoCommonKeychain: string)

  datatype FinalizeResponse = FinalizeResponse(source: Source, commonKeychain: string)

  /** A key as posted to the key provider. */
  datatype StoredKey = StoredKey(coin: string, source: Source, pub: string, prv: string)

  /** The key that finalize is about to store, or the error that stops it earlier. */
  function KeyToStore(env: Env, blob: Blob, req: FinalizeInput, seed: Seed): Result<StoredKey> {
    var state :- OpenBlob(env, blob).OkOr(Internal);
    if state.bitgoGpgPub.None? || state.counterPartyGpgPub.None? || state.sessionData.None? then Err(Internal)
    else
      var session :- env.restore(PartyOf(req.source), state.sessionData.value).OkOr(Internal);
      var plain :- env.openMail(Mail(req.broadcastMessages.Values(), []),
                                [state.bitgoGpgPub.value, state.counterPartyGpgPub.value],
                                state.sourceGpgPrv).OkOr(Internal);
      var (done, _) :- env.handle(session, plain, seed).OkOr(Internal);
      var share :- env.keyShare(done).OkOr(Internal);
      if req.bitgoCommonKeychain != env.commonKeychain(share) then Err(Assertion)
      else Ok(StoredKey(req.coin, req.source, env.commonKeychain(share), share))
  }

  datatype FinalizeOutcome = FinalizeOutcome(stored: Option<StoredKey>, result: Result<FinalizeResponse>)

  /** The specification of the finalize endpoint: the key it leaves in the store, and its answer. */
  function Finalize(env: Env, blob: Blob, req: FinalizeInput, seed: Seed, post: Post): FinalizeOutcome {
    match KeyToStore(env, blob, req, seed)
    case Err(e) => FinalizeOutcome(None, Err(e))
    case Ok(key) =>
      FinalizeOutcome(if post.Refused? then None else Some(key),
                      if post.Acknowledged? then Ok(FinalizeResponse(req.source, key.pub)) else Err(Network))
  }

  /** An AWM as its clients see it: its three endpoints. */
  datatype Awm = Awm(
    initialize: (Source, InitKeys) -> InitResponse,
    round: (Blob, RoundInput, Seed) -> Result<RoundResponse>,
    finalize: (Blob, FinalizeInput, Seed, Post) -> FinalizeOutcome)

  /** The AWM that runs the handlers above in this environment. */
  function Server(env: Env): Awm {
    Awm((source, keys) => Initialize(env, source, keys),
        (blob, req, seed: Seed) => Round(env, blob, req, seed),
        (blob, req, seed: Seed, post) => Finalize(env, blob, req, seed, post))
  }

  /** The AWM stores a key only under the keychain the call gave, and answers with that key. */
  ghost predicate ChecksKeychain(awm: Awm) {
    forall blob, req, seed, post :: KeychainChecked(req, awm.finalize(blob, req, seed, post))
  }

  predicate KeychainChecked(req: FinalizeInput, o: FinalizeOutcome) {
    && (o.stored.Some? ==> o.stored.value.pub == req.bitgoCommonKeychain && o.stored.value.source == req.source)
    && (o.result.Ok? ==>
          o.stored.Some? && o.result.value == FinalizeResponse(req.source, o.stored.value.pub))
  }

  /** Every server checks the keychain before it stores, and stores before it answers. */
  lemma ServerChecksKeychain(env: Env)
    ensures ChecksKeychain(Server(env))
  {
    forall blob, req, seed, post ensures KeychainChecked(req, Finalize(env, blob, req, seed, post)) {
    }
  }

  /** Finalize never looks at the round counter: a blob of any round with the same session serves. */
  lemma FinalizeIgnoresRound(env: Env, blob: Blob, blob': Blob, round': int, req: FinalizeInput, seed: Seed, post: Post)
    requires OpenBlob(env, blob).Some?
    requires OpenBlob(env, blob') == Some(OpenBlob(env, blob).value.(round := round'))
    ensures Finalize(env, blob', req, seed, post) == Finalize(env, blob, req, seed, post)
  {
    assert KeyToStore(env, blob', req, seed) == KeyToStore(env, blob, req, seed);
  }
}
