/**
  Master Express driving a user and a backup AWM through ECDSA MPCv2 key generation.

  The SDK calls four callbacks. It relays messages to and from BitGo; the messages that user
  and backup exchange are kept in eight variables the callbacks share.
 */
module MpcV2Orchestrator {
  import opened Prelude
  import opened MpcV2Awm

  // ----- The SDK's side -----

  datatype SdkBroadcast = SdkBroadcast(from: int, message: string, signature: string)
  datatype SdkP2P = SdkP2P(from: int, to: int, encryptedMessage: string, signature: string)

  function FormatBroadcast(m: SdkBroadcast): Broadcast {
    Broadcast(m.from, Signed(m.message, m.signature))
  }

  function FormatP2P(m: SdkP2P, commitment: Option<string>): P2P {
    P2P(m.from, m.to, Sealed(m.encryptedMessage, m.signature), commitment)
  }

  /** The chance events of one AWM call: its randomness, and whether its answer arrives. */
  datatype Coins = Coins(seed: Seed, delivered: bool)

  datatype InitializeInput = InitializeInput(
    bitgoPublicGpgKey: string, userKeys: InitKeys, backupKeys: InitKeys,
    userInit: bool, backupInit: bool, user: Coins, backup: Coins)

  datatype InitializeOutput = InitializeOutput(
    userGpgPublicKey: string, backupGpgPublicKey: string,
    userBroadcast: Broadcast, backupBroadcast: Broadcast,
    userState: Blob, backupState: Blob)

  datatype Round2Input = Round2Input(
    bitgoMsg1: SdkBroadcast, bitgoToUserMsg2: SdkP2P, bitgoToBackupMsg2: SdkP2P,
    userState: Blob, backupState: Blob,
    user2: Coins, backup2: Coins, user3: Coins, backup3: Coins)

  datatype Round2Output = Round2Output(userP2p: P2P, backupP2p: P2P, userState: Blob, backupState: Blob)

  datatype Round3Input = Round3Input(
    bitgoCommitment2: Option<string>, bitgoToUserMsg3: SdkP2P, bitgoToBackupMsg3: SdkP2P,
    userState: Blob, backupState: Blob, user: Coins, backup: Coins)

  datatype Round3Output = Round3Output(
    userBroadcast: Broadcast, backupBroadcast: Broadcast, userP2p: P2P, backupP2p: P2P,
    userState: Blob, backupState: Blob)

  datatype FinalInput = FinalInput(
    bitgoMsg4: SdkBroadcast, bitgoCommonKeychain: string, coin: string,
    userState: Blob, backupState: Blob,
    userSeed: Seed, backupSeed: Seed, userPost: Post, backupPost: Post, userDelivered: bool, backupDelivered: bool)

  // ----- The variables the callbacks share -----

  datatype Closure = Closure(
    userRound1: Option<Broadcast>,
    backupRound1: Option<Broadcast>,
    userRound3Bitgo: Option<P2P>,
    backupRound3Bitgo: Option<P2P>,
    userRound3Counter: Option<P2P>,
    backupRound3Counter: Option<P2P>,
    userRound4: Option<Broadcast>,
    backupRound4: Option<Broadcast>)

  const FRESH := Closure(None, None, None, None, None, None, None, None)

  // ----- Calls to an AWM -----

  /** One HTTP call issued to an AWM, with its answer. */
  datatype AwmCall =
    | InitCall(source: Source, init: Result<InitResponse>)
    | RoundCall(source: Source, blob: Blob, input: RoundInput, answer: Result<RoundResponse>)
    | FinalizeCall(source: Source, blob: Blob, final: FinalizeInput, outcome: FinalizeOutcome)

  function CallRound(awm: Awm, blob: Blob, input: RoundInput, coins: Coins): (c: AwmCall)
    ensures c.RoundCall? && c.source == input.source && c.blob == blob && c.input == input
    ensures c.answer.Ok? ==> c.answer == awm.round(blob, input, coins.seed)
  {
    RoundCall(input.source, blob, input, if coins.delivered then awm.round(blob, input, coins.seed) else Err(Network))
  }

  function CallFinalize(awm: Awm, blob: Blob, input: FinalizeInput, seed: Seed, post: Post, delivered: bool): AwmCall {
    var o := awm.finalize(blob, input, seed, post);
    FinalizeCall(input.source, blob, input, if delivered then o else o.(result := Err(Network)))
  }

  function Round1Input(source: Source, bitgoKey: string, counterPartyKey: string): RoundInput {
    RoundInput(source, 1, Some(bitgoKey), Some(counterPartyKey), None, None)
  }

  function BroadcastInput(source: Source, round: int, bitgo: Broadcast, counterParty: Broadcast): RoundInput {
    RoundInput(source, round, None, None, Some(Pair(Some(bitgo), Some(counterParty))), None)
  }

  function P2PInput(source: Source, round: int, bitgo: P2P, counterParty: P2P): RoundInput {
    RoundInput(source, round, None, None, None, Some(Pair(Some(bitgo), Some(counterParty))))
  }

  predicate HasBroadcast(c: AwmCall) {
    c.RoundCall? && c.answer.Ok? && c.answer.value.broadcastMessage.Some?
  }

  predicate HasP2Ps(c: AwmCall) {
    c.RoundCall? && c.answer.Ok? && c.answer.value.p2pMessages.Some? && c.answer.value.p2pMessages.value.Complete()
  }

  function BroadcastOf(c: AwmCall): Broadcast
    requires HasBroadcast(c)
  {
    c.answer.value.broadcastMessage.value
  }

  function BitgoP2POf(c: AwmCall): P2P
    requires HasP2Ps(c)
  {
    c.answer.value.p2pMessages.value.bitgo.value
  }

  function CounterP2POf(c: AwmCall): P2P
    requires HasP2Ps(c)
  {
    c.answer.value.p2pMessages.value.counterParty.value
  }

  /** Why a pair of calls failed: the error of a call that threw, or a missing message. */
  function Failure(u: AwmCall, b: AwmCall): Error {
    if u.RoundCall? && u.answer.Err? then u.answer.error
    else if b.RoundCall? && b.answer.Err? then b.answer.error
    else Assertion
  }

  // ----- The callbacks -----

  /** A callback's effect: the variables after it, the calls it issued, and what it returned. */
  datatype Outcome<+T> = Outcome(closure: Closure, calls: seq<AwmCall>, result: Result<T>)

  function InitializeStep(user: Awm, backup: Awm, c: Closure, i: InitializeInput): Outcome<InitializeOutput> {
    if c.userRound1.Some? then Outcome(c, [], Err(Assertion))
    else if !i.userInit then Outcome(c, [InitCall(User, Err(Network))], Err(Network))
    else if !i.backupInit then
      Outcome(c, [InitCall(User, Ok(user.initialize(User, i.userKeys))), InitCall(Backup, Err(Network))], Err(Network))
    else
      var userInit, backupInit := user.initialize(User, i.userKeys), backup.initialize(Backup, i.backupKeys);
      var u := CallRound(user, userInit.blob, Round1Input(User, i.bitgoPublicGpgKey, backupInit.gpgPub), i.user);
      var b := CallRound(backup, backupInit.blob, Round1Input(Backup, i.bitgoPublicGpgKey, userInit.gpgPub), i.backup);
      var calls := [InitCall(User, Ok(userInit)), InitCall(Backup, Ok(backupInit)), u, b];
      if !HasBroadcast(u) || !HasBroadcast(b) then Outcome(c, calls, Err(Failure(u, b)))
      else
        Outcome(c.(userRound1 := Some(BroadcastOf(u)), backupRound1 := Some(BroadcastOf(b))),
                calls,
                Ok(InitializeOutput(userInit.gpgPub, backupInit.gpgPub, BroadcastOf(u), BroadcastOf(b),
                                    u.answer.value.blob, b.answer.value.blob)))
  }

  /** BitGo's two p2p messages name BitGo as their sender and each its own addressee. */
  predicate FromBitgo(toUser: SdkP2P, toBackup: SdkP2P) {
    toUser.from == BITGO && toUser.to == USER && toBackup.from == BITGO && toBackup.to == BACKUP
  }

  /** AWM rounds 2 and 3 in one callback. */
  function Round2Step(user: Awm, backup: Awm, c: Closure, i: Round2Input): Outcome<Round2Output> {
    if c.userRound1.None? || c.backupRound1.None? || i.bitgoMsg1.from != BITGO then Outcome(c, [], Err(Assertion))
    else
      var bitgo := FormatBroadcast(i.bitgoMsg1);
      var u2 := CallRound(user, i.userState, BroadcastInput(User, 2, bitgo, c.backupRound1.value), i.user2);
      var b2 := CallRound(backup, i.backupState, BroadcastInput(Backup, 2, bitgo, c.userRound1.value), i.backup2);
      if !HasP2Ps(u2) || !HasP2Ps(b2) || !FromBitgo(i.bitgoToUserMsg2, i.bitgoToBackupMsg2) then
        Outcome(c, [u2, b2], Err(Failure(u2, b2)))
      else
        var u3 := CallRound(user, u2.answer.value.blob,
                            P2PInput(User, 3, FormatP2P(i.bitgoToUserMsg2, None), CounterP2POf(b2)), i.user3);
        var b3 := CallRound(backup, b2.answer.value.blob,
                            P2PInput(Backup, 3, FormatP2P(i.bitgoToBackupMsg2, None), CounterP2POf(u2)), i.backup3);
        if !HasP2Ps(u3) || !HasP2Ps(b3) then Outcome(c, [u2, b2, u3, b3], Err(Failure(u3, b3)))
        else
          Outcome(c.(userRound3Bitgo := Some(BitgoP2POf(u3)), backupRound3Bitgo := Some(BitgoP2POf(b3)),
                     userRound3Counter := Some(CounterP2POf(u3)), backupRound3Counter := Some(CounterP2POf(b3))),
                  [u2, b2, u3, b3],
                  Ok(Round2Output(BitgoP2POf(u2), BitgoP2POf(b2), u3.answer.value.blob, b3.answer.value.blob)))
  }

  /** AWM round 4. The round-3 messages for BitGo, held back so far, leave with its broadcasts. */
  function Round3Step(user: Awm, backup: Awm, c: Closure, i: Round3Input): Outcome<Round3Output> {
    if || c.userRound3Counter.None? || c.backupRound3Counter.None?
       || c.userRound3Bitgo.None? || c.backupRound3Bitgo.None?
       || !FromBitgo(i.bitgoToUserMsg3, i.bitgoToBackupMsg3) then
      Outcome(c, [], Err(Assertion))
    else
      var u := CallRound(user, i.userState,
                         P2PInput(User, 4, FormatP2P(i.bitgoToUserMsg3, i.bitgoCommitment2),
                                  c.backupRound3Counter.value),
                         i.user);
      var b := CallRound(backup, i.backupState,
                         P2PInput(Backup, 4, FormatP2P(i.bitgoToBackupMsg3, i.bitgoCommitment2),
                                  c.userRound3Counter.value),
                         i.backup);
      if !HasBroadcast(u) || !HasBroadcast(b) then Outcome(c, [u, b], Err(Failure(u, b)))
      else
        Outcome(c.(userRound4 := Some(BroadcastOf(u)), backupRound4 := Some(BroadcastOf(b))),
                [u, b],
                Ok(Round3Output(BroadcastOf(u), BroadcastOf(b), c.userRound3Bitgo.value, c.backupRound3Bitgo.value,
                                u.answer.value.blob, b.answer.value.blob)))
  }

  function FinalizeRequest(source: Source, i: FinalInput, counterParty: Broadcast): FinalizeInput {
    FinalizeInput(source, i.coin, Pair(Some(FormatBroadcast(i.bitgoMsg4)), Some(counterParty)), i.bitgoCommonKeychain)
  }

  function FinalizeStep(user: Awm, backup: Awm, c: Closure, i: FinalInput): Outcome<string> {
    if c.userRound4.None? || c.backupRound4.None? || i.bitgoMsg4.from != BITGO then Outcome(c, [], Err(Assertion))
    else
      var u := CallFinalize(user, i.userState, FinalizeRequest(User, i, c.backupRound4.value),
                            i.userSeed, i.userPost, i.userDelivered);
      var b := CallFinalize(backup, i.backupState, FinalizeRequest(Backup, i, c.userRound4.value),
                            i.backupSeed, i.backupPost, i.backupDelivered);
      Outcome(c, [u, b], CommonKeychain(u.outcome.result, b.outcome.result, i.bitgoCommonKeychain))
  }

  /** The keychain both AWMs and BitGo agree on. */
  function CommonKeychain(u: Result<FinalizeResponse>, b: Result<FinalizeResponse>, bitgo: string): Result<string> {
    if u.Err? then Err(u.error)
    else if b.Err? then Err(b.error)
    else if u.value.commonKeychain == "" || b.value.commonKeychain == "" then Err(Assertion)
    else if u.value.commonKeychain != b.value.commonKeychain || u.value.commonKeychain != bitgo then Err(Assertion)
    else Ok(u.value.commonKeychain)
  }

  /** The callback object: its methods share the eight variables and issue the AWM calls. */
  class KeyGenCallbacks {
    const user: Awm
    const backup: Awm
    var userRound1Broadcast: Option<Broadcast>
    var backupRound1Broadcast: Option<Broadcast>
    var userRound3BitgoP2p: Option<P2P>
    var backupRound3BitgoP2p: Option<P2P>
    var userRound3CounterPartyP2p: Option<P2P>
    var backupRound3CounterPartyP2p: Option<P2P>
    var userRound4Broadcast: Option<Broadcast>
    var backupRound4Broadcast: Option<Broadcast>
    ghost var issued: seq<AwmCall>

    /** The eight variables as one value. */
    ghost function Variables(): Closure
      reads this
    {
      Closure(userRound1Broadcast, backupRound1Broadcast,
              userRound3BitgoP2p, backupRound3BitgoP2p,
              userRound3CounterPartyP2p, backupRound3CounterPartyP2p,
              userRound4Broadcast, backupRound4Broadcast)
    }

    constructor (user: Awm, backup: Awm)
      ensures this.user == user && this.backup == backup
      ensures Variables() == FRESH && issued == []
    {
      this.user, this.backup := user, backup;
      userRound1Broadcast, backupRound1Broadcast := None, None;
      userRound3BitgoP2p, backupRound3BitgoP2p := None, None;
      userRound3CounterPartyP2p, backupRound3CounterPartyP2p := None, None;
      userRound4Broadcast, backupRound4Broadcast := None, None;
      issued := [];
    }

    method InitializeCallback(i: InitializeInput) returns (r: Result<InitializeOutput>)
      modifies this
      ensures old(issued) <= issued
      ensures InitializeStep(user, backup, old(Variables()), i) == Outcome(Variables(), issued[|old(issued)|..], r)
    {
      if userRound1Broadcast.Some? {
        return Err(Assertion);
      }
      if !i.userInit {
        issued := issued + [InitCall(User, Err(Network))];
        return Err(Network);
      }
      var userInit := user.initialize(User, i.userKeys);
      issued := issued + [InitCall(User, Ok(userInit))];
      if !i.backupInit {
        issued := issued + [InitCall(Backup, Err(Network))];
        return Err(Network);
      }
      var backupInit := backup.initialize(Backup, i.backupKeys);
      issued := issued + [InitCall(Backup, Ok(backupInit))];

      var u := CallRound(user, userInit.blob, Round1Input(User, i.bitgoPublicGpgKey, backupInit.gpgPub), i.user);
      var b := CallRound(backup, backupInit.blob, Round1Input(Backup, i.bitgoPublicGpgKey, userInit.gpgPub), i.backup);
      issued := issued + [u, b];
      if !HasBroadcast(u) || !HasBroadcast(b) {
        return Err(Failure(u, b));
      }
      assert issued == old(issued) + [InitCall(User, Ok(userInit)), InitCall(Backup, Ok(backupInit)), u, b];
      userRound1Broadcast := Some(BroadcastOf(u));
      backupRound1Broadcast := Some(BroadcastOf(b));
      return Ok(InitializeOutput(userInit.gpgPub, backupInit.gpgPub, BroadcastOf(u), BroadcastOf(b),
                                 u.answer.value.blob, b.answer.value.blob));
    }

    method Round2Callback(i: Round2Input) returns (r: Result<Round2Output>)
      modifies this
      ensures old(issued) <= issued
      ensures Round2Step(user, backup, old(Variables()), i) == Outcome(Variables(), issued[|old(issued)|..], r)
    {
      if userRound1Broadcast.None? || backupRound1Broadcast.None? || i.bitgoMsg1.from != BITGO {
        return Err(Assertion);
      }
      var bitgo := FormatBroadcast(i.bitgoMsg1);
      var u2 := CallRound(user, i.userState, BroadcastInput(User, 2, bitgo, backupRound1Broadcast.value), i.user2);
      var b2 := CallRound(backup, i.backupState,
                          BroadcastInput(Backup, 2, bitgo, userRound1Broadcast.value), i.backup2);
      issued := issued + [u2, b2];
      if !HasP2Ps(u2) || !HasP2Ps(b2) || !FromBitgo(i.bitgoToUserMsg2, i.bitgoToBackupMsg2) {
        return Err(Failure(u2, b2));
      }
      var u3 := CallRound(user, u2.answer.value.blob,
                          P2PInput(User, 3, FormatP2P(i.bitgoToUserMsg2, None), CounterP2POf(b2)), i.user3);
      var b3 := CallRound(backup, b2.answer.value.blob,
                          P2PInput(Backup, 3, FormatP2P(i.bitgoToBackupMsg2, None), CounterP2POf(u2)), i.backup3);
      issued := issued + [u3, b3];
      if !HasP2Ps(u3) || !HasP2Ps(b3) {
        return Err(Failure(u3, b3));
      }
      userRound3BitgoP2p := Some(BitgoP2POf(u3));
      backupRound3BitgoP2p := Some(BitgoP2POf(b3));
      userRound3CounterPartyP2p := Some(CounterP2POf(u3));
      backupRound3CounterPartyP2p := Some(CounterP2POf(b3));
      return Ok(Round2Output(BitgoP2POf(u2), BitgoP2POf(b2), u3.answer.value.blob, b3.answer.value.blob));
    }

    method Round3Callback(i: Round3Input) returns (r: Result<Round3Output>)
      modifies this
      ensures old(issued) <= issued
      ensures Round3Step(user, backup, old(Variables()), i) == Outcome(Variables(), issued[|old(issued)|..], r)
    {
      if || userRound3CounterPartyP2p.None? || backupRound3CounterPartyP2p.None?
         || userRound3BitgoP2p.None? || backupRound3BitgoP2p.None?
         || !FromBitgo(i.bitgoToUserMsg3, i.bitgoToBackupMsg3) {
        return Err(Assertion);
      }
      var u := CallRound(user, i.userState,
                         P2PInput(User, 4, FormatP2P(i.bitgoToUserMsg3, i.bitgoCommitment2),
                                  backupRound3CounterPartyP2p.value),
                         i.user);
      var b := CallRound(backup, i.backupState,
                         P2PInput(Backup, 4, FormatP2P(i.bitgoToBackupMsg3, i.bitgoCommitment2),
                                  userRound3CounterPartyP2p.value),
                         i.backup);
      issued := issued + [u, b];
      if !HasBroadcast(u) || !HasBroadcast(b) {
        return Err(Failure(u, b));
      }
      userRound4Broadcast := Some(BroadcastOf(u));
      backupRound4Broadcast := Some(BroadcastOf(b));
      return Ok(Round3Output(BroadcastOf(u), BroadcastOf(b), userRound3BitgoP2p.value, backupRound3BitgoP2p.value,
                             u.answer.value.blob, b.answer.value.blob));
    }

    method FinalizeCallback(i: FinalInput) returns (r: Result<string>)
      modifies this`issued
      ensures old(issued) <= issued
      ensures FinalizeStep(user, backup, old(Variables()), i) == Outcome(Variables(), issued[|old(issued)|..], r)
    {
      if userRound4Broadcast.None? || backupRound4Broadcast.None? || i.bitgoMsg4.from != BITGO {
        return Err(Assertion);
      }
      var u := CallFinalize(user, i.userState, FinalizeRequest(User, i, backupRound4Broadcast.value),
                            i.userSeed, i.userPost, i.userDelivered);
      var b := CallFinalize(backup, i.backupState, FinalizeRequest(Backup, i, userRound4Broadcast.value),
                            i.backupSeed, i.backupPost, i.backupDelivered);
      issued := issued + [u, b];
      return CommonKeychain(u.outcome.result, b.outcome.result, i.bitgoCommonKeychain);
    }
  }
}
