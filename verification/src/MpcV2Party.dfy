/**
  One party of the DKG kept in memory, and the proof that an AWM, which keeps nothing and
  receives its own state back in an encrypted blob, behaves as that party.
 */
module MpcV2Party {
  import opened Prelude
  import opened MpcV2Awm
  import opened MpcV2Orchestrator

  datatype Local = Local(session: Session, prv: PartyKey, bitgo: GpgPin, counterParty: GpgPin)

  /**
    Seals a party's outgoing messages for the other two. Like the AWM handler, which turns
    every commitment into bytes, a party stops at a p2p message that has none.
   */
  function Send(env: Env, l: Local, outgoing: PlainMail, seed: Seed): Option<(Local, Mail)> {
    if exists x | x in outgoing.p2ps :: x.commitment.None? then None
    else
      var sent :- env.sealMail(outgoing, [l.bitgo, l.counterParty], l.prv, seed);
      Some((l, sent))
  }

  /** Round 1: a party starts its session and broadcasts. */
  function Start(env: Env, source: Source, gpgPrv: string, bitgoKey: string, counterPartyKey: string, seed: Seed)
    : Option<(Local, Mail)>
  {
    var (session, broadcast) :- env.initDkg(PartyOf(source), seed);
    Send(env,
         Local(session, PartyKey(gpgPrv, PartyOf(source)),
               GpgPin(Some(bitgoKey), BITGO), GpgPin(Some(counterPartyKey), PartyOf(source.Other()))),
         Mail([broadcast], []), seed)
  }

  /** A later round: a party opens its mail, lets the session take it in, and answers. */
  function Hear(env: Env, l: Local, incoming: Mail, seed: Seed): Option<(Local, Mail)> {
    var plain :- env.openMail(incoming, [l.bitgo, l.counterParty], l.prv);
    var (session, outgoing) :- env.handle(l.session, plain, seed);
    Send(env, l.(session := session), outgoing, seed)
  }

  /** The end: a party takes in the last broadcasts and holds its key share. */
  function Finish(env: Env, l: Local, incoming: Mail, seed: Seed): Option<string> {
    var plain :- env.openMail(incoming, [l.bitgo, l.counterParty], l.prv);
    var (session, _) :- env.handle(l.session, plain, seed);
    env.keyShare(session)
  }

  /** The blob is party `l` of this source, about to run `round`. */
  ghost predicate Holds(env: Env, blob: Blob, l: Local, source: Source, round: int) {
    && OpenBlob(env, blob) ==
         Some(RoundState(round, l.prv, Some(l.bitgo), Some(l.counterParty), Some(env.sessionData(l.session))))
    && env.partyOf(l.session) == PartyOf(source)
  }

  /** An AWM answer says what the party did: it failed, or it moved on and sent this mail. */
  ghost predicate AnswersAs(env: Env, r: Result<RoundResponse>, step: Option<(Local, Mail)>,
                            source: Source, round: int)
  {
    match step
    case None => r.Err?
    case Some((l, sent)) =>
      && r.Ok?
      && Holds(env, r.value.blob, l, source, round)
      && r.value.broadcastMessage == First(sent.broadcasts)
      && r.value.p2pMessages == SplitP2Ps(sent.p2ps)
      && AddressedBy(PartyOf(source), sent)
  }

  lemma SealedAddresses(env: Env, p: int, m: PlainMail, pins: seq<GpgPin>, prv: PartyKey, seed: Seed)
    requires AddressLaw(env) && AddressedBy(p, m) && env.sealMail(m, pins, prv, seed).Some?
    ensures AddressedBy(p, env.sealMail(m, pins, prv, seed).value)
  {
    var sent := env.sealMail(m, pins, prv, seed).value;
    assert SameAddresses(m, sent);
    assert |m.broadcasts| == 1 ==> m.broadcasts[0] in m.broadcasts;
  }

  /** The end of a round: the handler's answer carries exactly what the party sent and became. */
  lemma RespondRefines(env: Env, state: RoundState, l: Local, outgoing: PlainMail,
                       key: string, wrappedKey: string, source: Source, seed: Seed)
    requires Lawful(env) && env.unwrapKey(wrappedKey) == Some(key)
    requires state.sourceGpgPrv == l.prv
    requires state.bitgoGpgPub == Some(l.bitgo) && state.counterPartyGpgPub == Some(l.counterParty)
    requires env.partyOf(l.session) == PartyOf(source) && AddressedBy(PartyOf(source), outgoing)
    ensures AnswersAs(env, Respond(env, state, l.session, outgoing, key, wrappedKey, seed),
                      Send(env, l, outgoing, seed), source, state.round + 1)
  {
    if HasCommitments(outgoing) && env.sealMail(outgoing, [l.bitgo, l.counterParty], l.prv, seed).Some? {
      SealedAddresses(env, PartyOf(source), outgoing, [l.bitgo, l.counterParty], l.prv, seed);
      var next := state.(round := state.round + 1, sessionData := Some(env.sessionData(l.session)));
      assert env.decrypt(env.encrypt(next, key, seed), key) == Some(next);
    }
  }

  /** Initialize followed by round 1 starts the party. */
  lemma StartRefines(env: Env, source: Source, keys: InitKeys, bitgoKey: string, counterPartyKey: string, seed: Seed)
    requires Lawful(env) && env.unwrapKey(keys.wrappedKey) == Some(keys.dataKey)
    ensures AnswersAs(env,
                      Round(env, Initialize(env, source, keys).blob,
                            Round1Input(source, bitgoKey, counterPartyKey), seed),
                      Start(env, source, keys.gpgPrv, bitgoKey, counterPartyKey, seed), source, 2)
  {
    var initial := InitialState(source, keys);
    var req := Round1Input(source, bitgoKey, counterPartyKey);
    var blob := Initialize(env, source, keys).blob;
    assert env.decrypt(blob.encryptedData, keys.dataKey) == Some(initial);
    var state := PinnedState(initial, req).value;
    match env.initDkg(PartyOf(source), seed)
    case None =>
    case Some((session, broadcast)) =>
      var l := Local(session, PartyKey(keys.gpgPrv, PartyOf(source)),
                     GpgPin(Some(bitgoKey), BITGO), GpgPin(Some(counterPartyKey), PartyOf(source.Other())));
      RespondRefines(env, state, l, Mail([broadcast], []), keys.dataKey, keys.wrappedKey, source, seed);
  }

  /** A round of an AWM holding a party is that party's round. */
  lemma RoundRefines(env: Env, blob: Blob, l: Local, source: Source, req: RoundInput, seed: Seed)
    requires Lawful(env) && Holds(env, blob, l, source, req.round)
    requires WellFormed(req) && req.source == source && req.round > 1
    requires req.bitgoGpgPub == None && req.counterPartyGpgPub == None
    ensures AnswersAs(env, Round(env, blob, req, seed), Hear(env, l, IncomingMail(req), seed), source, req.round + 1)
  {
    var key := env.unwrapKey(blob.encryptedDataKey).value;
    var stored := env.decrypt(blob.encryptedData, key).value;
    assert PinnedState(stored, req) == Ok(stored);
    assert env.restore(PartyOf(source), Normalize(env.sessionData(l.session))) == Some(l.session);
    match env.openMail(IncomingMail(req), [l.bitgo, l.counterParty], l.prv)
    case None =>
    case Some(plain) =>
      match env.handle(l.session, plain, seed)
      case None =>
      case Some((session, outgoing)) =>
        assert AddressedBy(env.partyOf(l.session), env.handle(l.session, plain, seed).value.1);
        RespondRefines(env, stored, l.(session := session), outgoing, key, blob.encryptedDataKey, source, seed);
  }

  /** Finalize stores the party's key share exactly when the party finishes on BitGo's keychain. */
  lemma FinalizeRefines(env: Env, blob: Blob, l: Local, source: Source, round: int, req: FinalizeInput, seed: Seed)
    requires Lawful(env) && Holds(env, blob, l, source, round) && req.source == source
    ensures var share := Finish(env, l, Mail(req.broadcastMessages.Values(), []), seed);
            match KeyToStore(env, blob, req, seed)
            case Err(_) => share.None? || env.commonKeychain(share.value) != req.bitgoCommonKeychain
            case Ok(key) =>
              && share.Some?
              && key == StoredKey(req.coin, source, req.bitgoCommonKeychain, share.value)
              && env.commonKeychain(share.value) == req.bitgoCommonKeychain
  {
    assert env.restore(PartyOf(source), env.sessionData(l.session)) == Some(l.session);
  }
}
