/** The round and finalize endpoints as the server runs them: step by step, with a key store. */
module MpcV2Server {
  import opened Prelude
  import opened MpcV2Awm

  class AwmServer {
    const env: Env
    var storedKeys: seq<StoredKey>

    constructor (env: Env)
      ensures this.env == env && storedKeys == []
    {
      this.env := env;
      storedKeys := [];
    }

    /** Pins the two GPG keys in the restored state, or checks them against the pins. */
    method PinKeys(stored: RoundState, req: RoundInput) returns (r: Result<RoundState>)
      ensures r == PinnedState(stored, req)
    {
      var state := stored;
      if state.bitgoGpgPub.None? {
        state := state.(bitgoGpgPub := Some(GpgPin(req.bitgoGpgPub, BITGO)));
      } else if Truthy(req.bitgoGpgPub) && state.bitgoGpgPub.value.gpgKey != req.bitgoGpgPub {
        return Err(Validation);
      }
      if state.counterPartyGpgPub.None? {
        var party := if req.source == User then BACKUP else USER;
        state := state.(counterPartyGpgPub := Some(GpgPin(req.counterPartyGpgPub, party)));
      } else if Truthy(req.counterPartyGpgPub) && state.counterPartyGpgPub.value.gpgKey != req.counterPartyGpgPub {
        return Err(Validation);
      }
      if state.round != req.round {
        return Err(Validation);
      }
      if state.sessionData.None? && req.round > 1 {
        return Err(Validation);
      }
      return Ok(state);
    }

    /** Starts or restores the session and lets it take in the messages of the round. */
    method RunSession(req: RoundInput, state: RoundState, seed: Seed) returns (r: Option<(Session, PlainMail)>)
      requires state.bitgoGpgPub.Some? && state.counterPartyGpgPub.Some?
      requires req.round != 1 ==> state.sessionData.Some?
      ensures r == Advance(env, req, state, seed)
    {
      var session, outgoing;
      if req.round == 1 {
        var start :- env.initDkg(PartyOf(req.source), seed);
        session, outgoing := start.0, Mail([start.1], []);
      } else {
        var sessionData := Normalize(state.sessionData.value);
        session :- env.restore(PartyOf(req.source), sessionData);
        var incoming :- env.openMail(IncomingMail(req), [state.bitgoGpgPub.value, state.counterPartyGpgPub.value],
                                     state.sourceGpgPrv);
        var advanced :- env.handle(session, incoming, seed);
        session, outgoing := advanced.0, advanced.1;
      }
      return Some((session, outgoing));
    }

    /** Casts the commitment of every outgoing p2p message; a missing one throws. */
    method CastCommitments(outgoing: PlainMail) returns (ok: bool)
      ensures ok <==> HasCommitments(outgoing)
    {
      var i := 0;
      while i < |outgoing.p2ps|
        invariant 0 <= i <= |outgoing.p2ps|
        invariant forall k | 0 <= k < i :: outgoing.p2ps[k].commitment.Some?
      {
        if outgoing.p2ps[i].commitment.None? {
          assert outgoing.p2ps[i] in outgoing.p2ps;
          return false;
        }
        i := i + 1;
      }
      return true;
    }

    /** Runs one round. The server itself keeps nothing: the new state leaves in the response. */
    method HandleRound(blob: Blob, req: RoundInput, seed: Seed) returns (r: Result<RoundResponse>)
      ensures r == Round(env, blob, req, seed)
    {
      if !WellFormed(req) {
        return Err(BadRequest);
      }
      var key :- env.unwrapKey(blob.encryptedDataKey).OkOr(Internal);
      var stored :- env.decrypt(blob.encryptedData, key).OkOr(Internal);
      var state :- PinKeys(stored, req);
      var advanced := RunSession(req, state, seed);
      if advanced.None? {
        return Err(Internal);
      }
      var (session, outgoing) := advanced.value;
      var cast := CastCommitments(outgoing);
      if !cast {
        return Err(Internal);
      }
      var sent :- env.sealMail(outgoing, [state.bitgoGpgPub.value, state.counterPartyGpgPub.value],
                               state.sourceGpgPrv, seed).OkOr(Internal);
      state := state.(round := state.round + 1, sessionData := Some(env.sessionData(session)));
      return Ok(RoundResponse(state.round, Blob(env.encrypt(state, key, seed), blob.encryptedDataKey),
                              First(sent.broadcasts), SplitP2Ps(sent.p2ps)));
    }

    /** Finishes the DKG, checks the keychain against BitGo's and posts the key. */
    method HandleFinalize(blob: Blob, req: FinalizeInput, seed: Seed, post: Post)
      returns (r: Result<FinalizeResponse>)
      modifies this`storedKeys
      ensures r == Finalize(env, blob, req, seed, post).result
      ensures storedKeys == match Finalize(env, blob, req, seed, post).stored
                            case None => old(storedKeys)
                            case Some(key) => old(storedKeys) + [key]
    {
      var key :- env.unwrapKey(blob.encryptedDataKey).OkOr(Internal);
      var state :- env.decrypt(blob.encryptedData, key).OkOr(Internal);
      if state.bitgoGpgPub.None? || state.counterPartyGpgPub.None? {
        return Err(Internal);
      }
      if state.sessionData.None? {
        return Err(Internal);
      }
      var session :- env.restore(PartyOf(req.source), state.sessionData.value).OkOr(Internal);
      var incoming :- env.openMail(Mail(req.broadcastMessages.Values(), []),
                                   [state.bitgoGpgPub.value, state.counterPartyGpgPub.value],
                                   state.sourceGpgPrv).OkOr(Internal);
      var advanced :- env.handle(session, incoming, seed).OkOr(Internal);
      session := advanced.0;

      var share :- env.keyShare(session).OkOr(Internal);
      var commonKeychain := env.commonKeychain(share);
      if req.bitgoCommonKeychain != commonKeychain {
        return Err(Assertion);
      }
      if post != Refused {
        storedKeys := storedKeys + [StoredKey(req.coin, req.source, commonKeychain, share)];
      }
      if post != Acknowledged {
        return Err(Network);
      }
      return Ok(FinalizeResponse(req.source, commonKeychain));
    }
  }
}
