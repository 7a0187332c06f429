/**
  Master Express driving a user and a backup AWM through EdDSA (MPCv1) key generation: one
  initialize callback for both, then one finalize callback each, the user's first.
 */
module EddsaKeyGen {
  import opened Prelude
  import opened Hex
  import opened EddsaAwm

  datatype State = State(encryptedData: string, encryptedDataKey: string)

  datatype InitializeOutput = InitializeOutput(
    userGpgPublicKey: string, backupGpgPublicKey: string,
    userToBitgoKeyShare: ShareMessage, backupToBitgoKeyShare: ShareMessage,
    backupToUserKeyShare: ShareMessage,
    userState: State, backupState: State)

  function ToState(r: InitResponse): State {
    State(r.encryptedData, r.encryptedDataKey)
  }

  /** The backup AWM is given the user's GPG key; the user AWM is given none. */
  function InitializeCallback(lib: Lib, bitgoKey: string, user: Draw, backup: Draw): Result<InitializeOutput> {
    var u :- Initialize(lib, User, bitgoKey, None, user);
    var b :- Initialize(lib, Backup, bitgoKey, Some(u.bitgoPayload.gpgKey), backup);
    if u.bitgoPayload.from != UserName || b.bitgoPayload.from != BackupName || b.counterPartyKeyShare.None? then
      Err(Assertion)
    else
      Ok(InitializeOutput(u.bitgoPayload.gpgKey, b.bitgoPayload.gpgKey, u.bitgoPayload, b.bitgoPayload,
                          b.counterPartyKeyShare.value, ToState(u), ToState(b)))
  }

  /** BitGo's keychain as the SDK hands it over; both fields may be missing. */
  datatype SdkKeychain = SdkKeychain(commonKeychain: Option<string>, keyShares: Option<seq<ShareMessage>>)

  datatype FinalizeArgs = FinalizeArgs(
    source: Source, coin: string, bitgoKeychain: SdkKeychain,
    counterPartyGpgKey: string, counterPartyKeyShare: ShareMessage, state: State)

  datatype Finalized = Finalized(commonKeychain: string, counterpartyKeyShare: Option<ShareMessage>)

  datatype CallbackOutcome = CallbackOutcome(stored: Option<StoredKey>, result: Result<Finalized>)

  /** The request to the AWM: the share is relabelled to come from the counterparty. */
  function FinalizeRequest(a: FinalizeArgs): FinalizeInput
    requires a.bitgoKeychain.commonKeychain.Some? && a.bitgoKeychain.keyShares.Some?
  {
    FinalizeInput(a.source, a.state.encryptedDataKey, a.state.encryptedData, a.counterPartyGpgKey,
                  Keychain(a.bitgoKeychain.commonKeychain.value, a.bitgoKeychain.keyShares.value), a.coin,
                  a.counterPartyKeyShare.(from := NameOf(a.source.Other()), to := NameOf(a.source)))
  }

  /**
    An empty list of shares passes the callback's own check and fails the one its client makes
    before it sends anything. The key the AWM stored stays stored when a check on its answer fails.
   */
  function FinalizeCallback(lib: Lib, unwrapKey: string -> Option<string>, a: FinalizeArgs, seed: Seed, post: Post)
    : CallbackOutcome
  {
    if || !Truthy(a.bitgoKeychain.commonKeychain)
       || a.bitgoKeychain.keyShares.None? || a.bitgoKeychain.keyShares.value == [] then
      CallbackOutcome(None, Err(Assertion))
    else
      var o := Finalize(lib, unwrapKey, FinalizeRequest(a), seed, post);
      match o.result
      case Err(e) => CallbackOutcome(o.stored, Err(e))
      case Ok(r) =>
        if a.source == User && r.counterpartyKeyShare.None? then CallbackOutcome(o.stored, Err(Assertion))
        else CallbackOutcome(o.stored, Ok(Finalized(r.commonKeychain, r.counterpartyKeyShare)))
  }

  /** The AWM is asked in the caller's terms, for a share from the counterparty to itself. */
  lemma RequestRelabelled(a: FinalizeArgs)
    requires a.bitgoKeychain.commonKeychain.Some? && a.bitgoKeychain.keyShares.Some?
    ensures var (own, other) := if a.source == User then (UserName, BackupName) else (BackupName, UserName);
            var m := a.counterPartyKeyShare;
            FinalizeRequest(a) == FinalizeInput(
              source := a.source, encryptedDataKey := a.state.encryptedDataKey, encryptedData := a.state.encryptedData,
              counterPartyGpgPub := a.counterPartyGpgKey, coin := a.coin,
              bitgoKeychain := Keychain(commonKeychain := a.bitgoKeychain.commonKeychain.value,
                                        keyShares := a.bitgoKeychain.keyShares.value),
              counterPartyKeyShare := ShareMessage(
                from := other, to := own, publicShare := m.publicShare, privateShare := m.privateShare,
                privateShareProof := m.privateShareProof, vssProof := m.vssProof, gpgKey := m.gpgKey))
  {
  }

  /**
    The callback returns what the AWM answered, once BitGo's keychain is complete and, for the
    user, the share for the backup is there. A key once stored stays stored whatever it returns.
   */
  lemma CallbackAnswers(lib: Lib, unwrapKey: string -> Option<string>, a: FinalizeArgs, seed: Seed, post: Post,
                        f: Finalized)
    ensures var (keychain, shares) := (a.bitgoKeychain.commonKeychain, a.bitgoKeychain.keyShares);
            var complete := keychain.Some? && keychain.value != "" && shares.Some? && shares.value != [];
            var o := FinalizeCallback(lib, unwrapKey, a, seed, post);
            && (!complete ==> o == CallbackOutcome(None, Err(Assertion)))
            && (complete ==>
                  var awm := Finalize(lib, unwrapKey, FinalizeRequest(a), seed, post);
                  && o.stored == awm.stored
                  && (awm.result.Err? ==> o.result == Err(awm.result.error))
                  && (awm.result.Ok? && a.source == User && awm.result.value.counterpartyKeyShare == None ==>
                        o.result == Err(Assertion))
                  && (o.result == Ok(f) <==>
                        && awm.result.Ok? && (a.source == User ==> f.counterpartyKeyShare != None)
                        && f.commonKeychain == awm.result.value.commonKeychain
                        && f.counterpartyKeyShare == awm.result.value.counterpartyKeyShare))
  {
    hide Finalize, FinalizeRequest;
  }

  // ----- A complete run -----

  /** What a run draws, and what the outside world answers. */
  datatype Chance = Chance(
    coin: string, user: Draw, backup: Draw, keychain: SdkKeychain,
    userSeed: Seed, backupSeed: Seed, userPost: Post, backupPost: Post)

  function UserArgs(c: Chance, i: InitializeOutput): FinalizeArgs {
    FinalizeArgs(User, c.coin, c.keychain, i.backupGpgPublicKey, i.backupToUserKeyShare, i.userState)
  }

  function BackupArgs(c: Chance, i: InitializeOutput, share: ShareMessage): FinalizeArgs {
    FinalizeArgs(Backup, c.coin, c.keychain, i.userGpgPublicKey, share, i.backupState)
  }

  /** The two finalize callbacks of a run: the user's, and the backup's if the user's succeeded. */
  datatype Outcome = Outcome(user: CallbackOutcome, backup: CallbackOutcome) {
    predicate Succeeded() { user.result.Ok? && backup.result.Ok? }
  }

  /** The user's finalize comes first, and the share it gives up goes to the backup's. */
  function Run(lib: Lib, userKms: string -> Option<string>, backupKms: string -> Option<string>,
               c: Chance, i: InitializeOutput): Outcome
  {
    var u := FinalizeCallback(lib, userKms, UserArgs(c, i), c.userSeed, c.userPost);
    match u.result
    case Err(e) => Outcome(u, CallbackOutcome(None, Err(e)))
    case Ok(r) =>
      if r.counterpartyKeyShare.None? then Outcome(u, CallbackOutcome(None, Err(Internal)))
      else
        Outcome(u, FinalizeCallback(lib, backupKms, BackupArgs(c, i, r.counterpartyKeyShare.value),
                                    c.backupSeed, c.backupPost))
  }

  /**
    Whatever BitGo, the libraries and the network do: a run that succeeds leaves both AWMs
    with a key under the one keychain that BitGo's keychain names and both callbacks returned.
   */
  lemma SuccessMeansAgreement(lib: Lib, userKms: string -> Option<string>, backupKms: string -> Option<string>,
                              c: Chance, i: InitializeOutput)
    requires Run(lib, userKms, backupKms, c, i).Succeeded()
    ensures var o := Run(lib, userKms, backupKms, c, i);
            && o.user.stored.Some? && o.backup.stored.Some?
            && o.user.stored.value.source == User && o.backup.stored.value.source == Backup
            && Some(o.user.stored.value.pub) == Some(o.backup.stored.value.pub) == c.keychain.commonKeychain
            && o.user.result.value.commonKeychain == o.backup.result.value.commonKeychain == o.user.stored.value.pub
  {
  }

  // ----- Shares in transport -----

  /** The message brings party `i` the share that `k` holds for it, sealed so that `prv` opens it. */
  ghost predicate Carries(lib: Lib, m: ShareMessage, k: KeyShare, i: int, prv: string)
    requires i in k.yShares
  {
    && m.publicShare == Pack(k.uShare.y, k.uShare.chaincode)
    && lib.gpgDecrypt(m.privateShare, prv) == Some(Pack(k.yShares[i].u, k.yShares[i].chaincode))
    && m.vssProof == k.yShares[i].v
  }

  /** What the addressee rebuilds is the share its peer made for it, field by field. */
  lemma Transport(lib: Lib, m: ShareMessage, k: KeyShare, i: int, j: int, prv: string)
    requires {i, j} < {1, 2, 3} && i != j && WellMade(j, k) && Carries(lib, m, k, i, prv)
    ensures Rebuild(i, j, m, lib.gpgDecrypt(m.privateShare, prv).value) == k.yShares[i]
  {
    assert i in {1, 2, 3} - {j};
    PackSlices(k.uShare.y, k.uShare.chaincode);
    PackSlices(k.yShares[i].u, k.yShares[i].chaincode);
  }

  /** Keys drawn by the two initialize calls work, and BitGo's GPG key can be sealed for. */
  ghost predicate Drawn(lib: Lib, userKms: string -> Option<string>, backupKms: string -> Option<string>,
                        bitgoKey: string, bitgoPrv: string, user: Draw, backup: Draw)
  {
    && lib.gpgPair(bitgoKey, bitgoPrv)
    && lib.gpgPair(user.gpgPub, user.gpgPrv) && lib.gpgPair(backup.gpgPub, backup.gpgPrv)
    && userKms(user.wrappedKey) == Some(user.dataKey) && backupKms(backup.wrappedKey) == Some(backup.dataKey)
  }

  function KeyShareOf(lib: Lib, source: Source, draw: Draw): KeyShare {
    lib.keyShare(Index(source), draw.seed)
  }

  /** The share an initialize call makes for `to`, once sealed, carries the share `j` was made. */
  lemma SealedCarries(lib: Lib, m: ShareMessage, k: KeyShare, j: int, pub: string, prv: string, seed: Seed)
    requires GpgLaw(lib) && lib.gpgPair(pub, prv) && j in k.yShares
    requires m.publicShare == Pack(k.uShare.y, k.uShare.chaincode) && m.vssProof == k.yShares[j].v
    requires m.privateShare == Pack(k.yShares[j].u, k.yShares[j].chaincode)
    ensures Seal(lib, m, pub, seed).Some? && Carries(lib, Seal(lib, m, pub, seed).value, k, j, prv)
  {
    assert lib.gpgDecrypt(lib.gpgEncrypt(m.privateShare, pub, seed).value, prv) == Some(m.privateShare);
  }

  /** The message names its maker, its addressee and the maker's key, and proves the share it carries. */
  predicate Labelled(lib: Lib, m: ShareMessage, from: Source, to: Name, k: KeyShare, j: int, draw: Draw)
    requires j in k.yShares
  {
    && m.from == NameOf(from) && m.to == to && m.gpgKey == draw.gpgPub
    && m.privateShareProof == lib.shareProof(draw.gpgPrv, k.yShares[j].u)
  }

  lemma ShareLabelled(lib: Lib, from: Source, to: Name, k: KeyShare, j: int, draw: Draw)
    requires WellMade(Index(from), k) && j in {1, 2, 3} - {Index(from)}
    ensures Labelled(lib, ShareFor(lib, from, to, k, j, draw), from, to, k, j, draw)
  {
    PackSlices(k.yShares[j].u, k.yShares[j].chaincode);
  }

  lemma SealKeepsLabels(lib: Lib, m: ShareMessage, from: Source, to: Name, k: KeyShare, j: int, draw: Draw,
                        pub: string, seed: Seed)
    requires j in k.yShares && Labelled(lib, m, from, to, k, j, draw) && Seal(lib, m, pub, seed).Some?
    ensures Labelled(lib, Seal(lib, m, pub, seed).value, from, to, k, j, draw)
  {
  }

  /** What the two parties hold and sent after the initialize callback. */
  ghost predicate Initialized(lib: Lib, i: InitializeOutput, user: Draw, backup: Draw) {
    var ku, kb := KeyShareOf(lib, User, user), KeyShareOf(lib, Backup, backup);
    && 2 in ku.yShares && 1 in kb.yShares && 3 in ku.yShares && 3 in kb.yShares
    && i.userGpgPublicKey == user.gpgPub && i.backupGpgPublicKey == backup.gpgPub
    && i.userState.encryptedDataKey == user.wrappedKey && i.backupState.encryptedDataKey == backup.wrappedKey
    && lib.decrypt(i.userState.encryptedData, user.dataKey) ==
         Some(Payload(user.gpgPub, user.gpgPrv, ku.uShare, Some(ShareFor(lib, User, BackupName, ku, 2, user))))
    && lib.decrypt(i.backupState.encryptedData, backup.dataKey) ==
         Some(Payload(backup.gpgPub, backup.gpgPrv, kb.uShare, None))
    && Carries(lib, i.backupToUserKeyShare, kb, 1, user.gpgPrv)
    && Labelled(lib, i.userToBitgoKeyShare, User, BitgoName, ku, 3, user)
    && Labelled(lib, i.backupToBitgoKeyShare, Backup, BitgoName, kb, 3, backup)
    && Labelled(lib, i.backupToUserKeyShare, Backup, UserName, kb, 1, backup)
  }

  /**
    Initialize always succeeds. The user's share for the backup stays in the user's payload,
    the backup's for the user leaves at once, and BitGo gets one it can open from each.
   */
  lemma InitializeSucceeds(lib: Lib, userKms: string -> Option<string>, backupKms: string -> Option<string>,
                           bitgoKey: string, bitgoPrv: string, user: Draw, backup: Draw)
    requires Lawful(lib) && Drawn(lib, userKms, backupKms, bitgoKey, bitgoPrv, user, backup)
    ensures var r := InitializeCallback(lib, bitgoKey, user, backup);
            && r.Ok? && Initialized(lib, r.value, user, backup)
            && Carries(lib, r.value.userToBitgoKeyShare, KeyShareOf(lib, User, user), 3, bitgoPrv)
            && Carries(lib, r.value.backupToBitgoKeyShare, KeyShareOf(lib, Backup, backup), 3, bitgoPrv)
  {
    hide Pack, Head64, Labelled, Field32;
    var ku, kb := KeyShareOf(lib, User, user), KeyShareOf(lib, Backup, backup);
    assert WellMade(1, ku) && WellMade(2, kb);
    ShareLabelled(lib, User, BitgoName, ku, 3, user);
    ShareLabelled(lib, Backup, BitgoName, kb, 3, backup);
    ShareLabelled(lib, Backup, UserName, kb, 1, backup);
    SealKeepsLabels(lib, ShareFor(lib, User, BitgoName, ku, 3, user), User, BitgoName, ku, 3, user,
                    bitgoKey, user.seed);
    SealKeepsLabels(lib, ShareFor(lib, Backup, BitgoName, kb, 3, backup), Backup, BitgoName, kb, 3, backup,
                    bitgoKey, backup.seed);
    SealKeepsLabels(lib, ShareFor(lib, Backup, UserName, kb, 1, backup), Backup, UserName, kb, 1, backup,
                    user.gpgPub, backup.seed);
    assert 2 in ku.yShares && 3 in ku.yShares && 1 in kb.yShares && 3 in kb.yShares;
    SealedCarries(lib, ShareFor(lib, User, BitgoName, ku, 3, user), ku, 3, bitgoKey, bitgoPrv, user.seed);
    SealedCarries(lib, ShareFor(lib, Backup, BitgoName, kb, 3, backup), kb, 3, bitgoKey, bitgoPrv, backup.seed);
    SealedCarries(lib, ShareFor(lib, Backup, UserName, kb, 1, backup), kb, 1, user.gpgPub, user.gpgPrv, backup.seed);
    assert user.gpgPub != "";
  }

  // ----- Agreement -----

  /** The three key shares of a run, BitGo's drawn with seed `bitgo`. */
  function Shares3(lib: Lib, user: Draw, backup: Draw, bitgo: Seed): (KeyShare, KeyShare, KeyShare) {
    (KeyShareOf(lib, User, user), KeyShareOf(lib, Backup, backup), lib.keyShare(BITGO_INDEX, bitgo))
  }

  /** The common keychain of the three parties' shares. */
  function Joint(lib: Lib, user: Draw, backup: Draw, bitgo: Seed): string {
    var (u, b, g) := Shares3(lib, user, backup, bitgo);
    var combined := lib.jointKey(multiset{PublicPair(u), PublicPair(b), PublicPair(g)});
    combined.y + combined.chaincode
  }

  /** BitGo's keychain holds, for this party, the share BitGo made for it. */
  ghost predicate HonestFor(lib: Lib, shares: seq<ShareMessage>, g: KeyShare, source: Source, prv: string) {
    && Index(source) in g.yShares
    && FindShare(shares, NameOf(source)).Some?
    && Carries(lib, FindShare(shares, NameOf(source)).value, g, Index(source), prv)
  }

  /** What the signature check is given in this run. */
  function Check(c: Chance, g: KeyShare, source: Source): Verification
    requires c.keychain.commonKeychain.Some? && c.keychain.keyShares.Some? && Index(source) in g.yShares
  {
    Verification(c.user.gpgPub, c.backup.gpgPub, Keychain(c.keychain.commonKeychain.value, c.keychain.keyShares.value),
                 Pack(g.yShares[Index(source)].u, g.yShares[Index(source)].chaincode), Index(source))
  }

  lemma AllWellMade(lib: Lib, i: int, seed: Seed)
    requires CombineLaw(lib) && i in {1, 2, 3}
    ensures WellMade(i, lib.keyShare(i, seed))
  {
  }

  /** Party `i` combines its share with the two it was sent into the joint key. */
  lemma Combined(lib: Lib, i: int, j: int, si: Seed, sj: Seed, sg: Seed)
    requires CombineLaw(lib) && {i, j} == {1, 2}
    ensures var own, other, g := lib.keyShare(i, si), lib.keyShare(j, sj), lib.keyShare(BITGO_INDEX, sg);
            && i in other.yShares && i in g.yShares
            && lib.combine(own.uShare, [g.yShares[i], other.yShares[i]]) ==
                 Some(lib.jointKey(multiset{PublicPair(own), PublicPair(other), PublicPair(g)}))
  {
    hide Field32;
    var own, other, g := lib.keyShare(i, si), lib.keyShare(j, sj), lib.keyShare(BITGO_INDEX, sg);
    assert i != j by { assert 1 in {i, j} && 2 in {i, j}; }
    assert WellMade(j, other) && WellMade(BITGO_INDEX, g);
    assert i in {1, 2, 3} - {j} && i in {1, 2, 3} - {BITGO_INDEX};
    assert {i, BITGO_INDEX, j} == {1, 2, 3};
    assert Shares(lib, i, BITGO_INDEX, j, si, sg, sj) && Combines(lib, i, BITGO_INDEX, j, si, sg, sj);
    assert multiset{PublicPair(own), PublicPair(g), PublicPair(other)} ==
           multiset{PublicPair(own), PublicPair(other), PublicPair(g)};
  }

  /** One party's half of the agreement: the key it is about to store, if its two checks pass. */
  lemma KeyOf(lib: Lib, req: FinalizeInput, state: Payload, own: KeyShare, other: KeyShare, g: KeyShare,
              si: Seed, sj: Seed, sg: Seed)
    requires CombineLaw(lib)
    requires var i, j := Index(req.source), Index(req.source.Other());
             && own == lib.keyShare(i, si) && other == lib.keyShare(j, sj) && g == lib.keyShare(BITGO_INDEX, sg)
             && state.sourcePrivateShare == own.uShare && i in other.yShares
             && HonestFor(lib, req.bitgoKeychain.keyShares, g, req.source, state.sourceGpgPrv)
             && Carries(lib, req.counterPartyKeyShare, other, i, state.sourceGpgPrv)
    ensures var i := Index(req.source);
            var joint := lib.jointKey(multiset{PublicPair(own), PublicPair(other), PublicPair(g)});
            KeyToStore(lib, req, state) ==
              if lib.verify(VerificationOf(req, state, Pack(g.yShares[i].u, g.yShares[i].chaincode)))
                 && req.bitgoKeychain.commonKeychain == joint.y + joint.chaincode
              then Ok(StoredKey(joint.y + joint.chaincode,
                                Material(req.source, own.uShare, g.yShares[i], other.yShares[i]), req.source, req.coin))
              else Err(Internal)
  {
    hide Pack, Head64, Tail64, Rebuild, Material, VerificationOf, CombineLaw, WellMade;
    var i, j := Index(req.source), Index(req.source.Other());
    var bitgo := FindShare(req.bitgoKeychain.keyShares, NameOf(req.source)).value;
    AllWellMade(lib, j, sj);
    AllWellMade(lib, BITGO_INDEX, sg);
    Transport(lib, bitgo, g, i, BITGO_INDEX, state.sourceGpgPrv);
    Transport(lib, req.counterPartyKeyShare, other, i, j, state.sourceGpgPrv);
    Combined(lib, i, j, si, sj, sg);
  }

  /** BitGo is honest in this run: both parties find the shares it made for them in its keychain. */
  ghost predicate HonestBitgo(lib: Lib, c: Chance, bitgo: Seed) {
    && c.keychain.commonKeychain.Some? && c.keychain.keyShares.Some?
    && HonestFor(lib, c.keychain.keyShares.value, lib.keyShare(BITGO_INDEX, bitgo), User, c.user.gpgPrv)
    && HonestFor(lib, c.keychain.keyShares.value, lib.keyShare(BITGO_INDEX, bitgo), Backup, c.backup.gpgPrv)
  }

  /** What a party stores at the end of an agreed run. */
  function AgreedKey(lib: Lib, c: Chance, bitgo: Seed, source: Source): StoredKey
    requires var (u, b, g) := Shares3(lib, c.user, c.backup, bitgo);
             1 in g.yShares && 2 in g.yShares && 1 in b.yShares && 2 in u.yShares
  {
    var (u, b, g) := Shares3(lib, c.user, c.backup, bitgo);
    StoredKey(Joint(lib, c.user, c.backup, bitgo),
              if source == User then SigningMaterial(u.uShare, g.yShares[1], Some(b.yShares[1]), None)
              else SigningMaterial(b.uShare, g.yShares[2], None, Some(u.yShares[2])),
              source, c.coin)
  }

  /** The user's finalize callback, and the share it passes on. */
  lemma UserFinalizes(lib: Lib, userKms: string -> Option<string>, c: Chance, i: InitializeOutput, bitgo: Seed)
    requires Lawful(lib) && lib.gpgPair(c.backup.gpgPub, c.backup.gpgPrv)
    requires userKms(c.user.wrappedKey) == Some(c.user.dataKey)
    requires Initialized(lib, i, c.user, c.backup) && HonestBitgo(lib, c, bitgo)
    ensures var o := FinalizeCallback(lib, userKms, UserArgs(c, i), c.userSeed, c.userPost);
            var (u, b, g) := Shares3(lib, c.user, c.backup, bitgo);
            var joint := Joint(lib, c.user, c.backup, bitgo);
            && (o.result.Ok? <==> lib.verify(Check(c, g, User))
                                  && c.keychain.commonKeychain == Some(joint) && joint != ""
                                  && c.userPost == Acknowledged)
            && (o.result.Ok? ==>
                  && o.stored == Some(AgreedKey(lib, c, bitgo, User)) && o.result.value.commonKeychain == joint
                  && o.result.value.counterpartyKeyShare.Some?
                  && Carries(lib, o.result.value.counterpartyKeyShare.value, u, 2, c.backup.gpgPrv))
  {
    hide Pack, Head64, Tail64, KeyToStore, CombineLaw, CipherLaw, GpgLaw;
    var (u, b, g) := Shares3(lib, c.user, c.backup, bitgo);
    var req := FinalizeRequest(UserArgs(c, i));
    var clear := ShareFor(lib, User, BackupName, u, 2, c.user);
    var state := Payload(c.user.gpgPub, c.user.gpgPrv, u.uShare, Some(clear));
    KeyOf(lib, req, state, u, b, g, c.user.seed, c.backup.seed, bitgo);
    assert Joint(lib, c.user, c.backup, bitgo) ==
           lib.jointKey(multiset{PublicPair(u), PublicPair(b), PublicPair(g)}).y +
           lib.jointKey(multiset{PublicPair(u), PublicPair(b), PublicPair(g)}).chaincode;
    SealedCarries(lib, clear, u, 2, c.backup.gpgPub, c.backup.gpgPrv, c.userSeed);
    PairNotEmpty(lib, c.backup.gpgPub, c.backup.gpgPrv);
    FindShareNotEmpty(c.keychain.keyShares.value, UserName);
    assert VerificationOf(req, state, Pack(g.yShares[1].u, g.yShares[1].chaincode)) == Check(c, g, User);
  }

  lemma PairNotEmpty(lib: Lib, pub: string, prv: string)
    requires GpgLaw(lib) && lib.gpgPair(pub, prv)
    ensures pub != ""
  {
    assert lib.gpgEncrypt("", pub, 0).Some?;
  }

  lemma FindShareNotEmpty(shares: seq<ShareMessage>, to: Name)
    requires FindShare(shares, to).Some?
    ensures shares != []
  {
  }

  /** The backup's finalize callback, given the share the user passed on. */
  lemma BackupFinalizes(lib: Lib, backupKms: string -> Option<string>, c: Chance, i: InitializeOutput,
                        share: ShareMessage, bitgo: Seed)
    requires Lawful(lib) && backupKms(c.backup.wrappedKey) == Some(c.backup.dataKey)
    requires Initialized(lib, i, c.user, c.backup) && HonestBitgo(lib, c, bitgo)
    requires Carries(lib, share, KeyShareOf(lib, User, c.user), 2, c.backup.gpgPrv)
    ensures var o := FinalizeCallback(lib, backupKms, BackupArgs(c, i, share), c.backupSeed, c.backupPost);
            var (u, b, g) := Shares3(lib, c.user, c.backup, bitgo);
            var joint := Joint(lib, c.user, c.backup, bitgo);
            && (o.result.Ok? <==> lib.verify(Check(c, g, Backup))
                                  && c.keychain.commonKeychain == Some(joint) && joint != ""
                                  && c.backupPost == Acknowledged)
            && (o.result.Ok? ==>
                  && o.stored == Some(AgreedKey(lib, c, bitgo, Backup)) && o.result.value.commonKeychain == joint
                  && o.result.value.counterpartyKeyShare == None)
  {
    hide Pack, Head64, Tail64, KeyToStore, CombineLaw, CipherLaw, GpgLaw;
    var (u, b, g) := Shares3(lib, c.user, c.backup, bitgo);
    var req := FinalizeRequest(BackupArgs(c, i, share));
    var state := Payload(c.backup.gpgPub, c.backup.gpgPrv, b.uShare, None);
    KeyOf(lib, req, state, b, u, g, c.backup.seed, c.user.seed, bitgo);
    assert multiset{PublicPair(u), PublicPair(b), PublicPair(g)} ==
           multiset{PublicPair(b), PublicPair(u), PublicPair(g)};
    FindShareNotEmpty(c.keychain.keyShares.value, BackupName);
    assert VerificationOf(req, state, Pack(g.yShares[2].u, g.yShares[2].chaincode)) == Check(c, g, Backup);
  }

  /**
    Agreement. With an honest BitGo, a run succeeds exactly when the signature check accepts
    both parties, BitGo names the joint keychain, and the key provider takes both keys. Then
    each party has stored its own share with BitGo's share and the other party's, each under
    its right name and with its right index, and both stand under the joint keychain.
   */
  lemma Agreement(lib: Lib, userKms: string -> Option<string>, backupKms: string -> Option<string>,
                  bitgoKey: string, bitgoPrv: string, c: Chance, bitgo: Seed)
    requires Lawful(lib) && Drawn(lib, userKms, backupKms, bitgoKey, bitgoPrv, c.user, c.backup)
    requires HonestBitgo(lib, c, bitgo)
    ensures var i := InitializeCallback(lib, bitgoKey, c.user, c.backup);
            && i.Ok? && Initialized(lib, i.value, c.user, c.backup)
            && var o := Run(lib, userKms, backupKms, c, i.value);
               var g := lib.keyShare(BITGO_INDEX, bitgo);
               var joint := Joint(lib, c.user, c.backup, bitgo);
            && (o.Succeeded() <==>
                  && lib.verify(Check(c, g, User)) && lib.verify(Check(c, g, Backup))
                  && c.keychain.commonKeychain == Some(joint) && joint != ""
                  && c.userPost == Acknowledged && c.backupPost == Acknowledged)
            && (o.Succeeded() ==>
                  && o.user.stored == Some(AgreedKey(lib, c, bitgo, User))
                  && o.backup.stored == Some(AgreedKey(lib, c, bitgo, Backup)))
  {
    hide Initialized, FinalizeCallback, Lawful, Carries, AgreedKey, Check, Joint, HonestBitgo;
    InitializeSucceeds(lib, userKms, backupKms, bitgoKey, bitgoPrv, c.user, c.backup);
    var i := InitializeCallback(lib, bitgoKey, c.user, c.backup).value;
    UserFinalizes(lib, userKms, c, i, bitgo);
    var u := FinalizeCallback(lib, userKms, UserArgs(c, i), c.userSeed, c.userPost);
    if u.result.Ok? {
      BackupFinalizes(lib, backupKms, c, i, u.result.value.counterpartyKeyShare.value, bitgo);
    }
  }
}
