/**
  The EdDSA (MPCv1) key generation endpoints of an AWM: initialize makes this party's shares
  and packs them for the other two, finalize rebuilds what the others sent and combines.
 */
module EddsaAwm {
  import opened Prelude
  import opened Hex

  // Indices of the parties: user 1, backup 2, BitGo 3.
  const BITGO_INDEX := 3

  function Index(source: Source): int {
    if source == User then 1 else 2
  }

  datatype Name = UserName | BackupName | BitgoName

  function NameOf(source: Source): Name {
    if source == User then UserName else BackupName
  }

  /** A party's own share. */
  datatype UShare = UShare(i: int, y: string, seed: string, chaincode: string)

  /** A share that party `j` made for party `i`. */
  datatype YShare = YShare(i: int, j: int, y: string, v: Option<string>, u: string, chaincode: string)

  datatype KeyShare = KeyShare(uShare: UShare, yShares: map<int, YShare>)

  /** A share on its way to another party. */
  datatype ShareMessage = ShareMessage(
    from: Name, to: Name, publicShare: string, privateShare: string,
    privateShareProof: string, vssProof: Option<string>, gpgKey: string)

  /** What initialize keeps for finalize, in the encrypted payload. */
  datatype Payload = Payload(
    sourceGpgPub: string, sourceGpgPrv: string, sourcePrivateShare: UShare,
    counterPartyKeyShare: Option<ShareMessage>)

  datatype Keychain = Keychain(commonKeychain: string, keyShares: seq<ShareMessage>)

  datatype Combined = Combined(y: string, chaincode: string)

  /** What the wallet signature check is given. */
  datatype Verification = Verification(
    userGpgPub: string, backupGpgPub: string, keychain: Keychain, bitgoPrivateShare: string, index: int)

  /** The MPC and OpenPGP libraries and the symmetric cipher. */
  datatype Lib = Lib(
    keyShare: (int, Seed) -> KeyShare,
    combine: (UShare, seq<YShare>) -> Option<Combined>,
    jointKey: multiset<(string, string)> -> Combined,
    gpgPair: (string, string) -> bool,
    gpgEncrypt: (string, string, Seed) -> Option<string>,
    gpgDecrypt: (string, string) -> Option<string>,
    shareProof: (string, string) -> string,
    verify: Verification -> bool,
    encrypt: (Payload, string, Seed) -> string,
    decrypt: (string, string) -> Option<Payload>)

  /** A 32-byte value in canonical hex. */
  predicate Field32(s: string) {
    Canonical(s) && |s| == 64
  }

  /** The shape of what `keyShare` makes for party `i`: its share and one for each other party. */
  predicate WellMade(i: int, k: KeyShare) {
    && k.uShare.i == i && Field32(k.uShare.y) && Field32(k.uShare.chaincode)
    && forall j | j in {1, 2, 3} - {i} ::
         && j in k.yShares
         && k.yShares[j].i == j && k.yShares[j].j == i
         && k.yShares[j].y == k.uShare.y && k.yShares[j].chaincode == k.uShare.chaincode
         && Field32(k.yShares[j].u)
  }

  function PublicPair(k: KeyShare): (string, string) {
    (k.uShare.y, k.uShare.chaincode)
  }

  /** Honest shares combine, and what comes out depends on the parties' public pairs alone. */
  ghost predicate CombineLaw(lib: Lib) {
    && (forall i, seed | i in {1, 2, 3} :: WellMade(i, lib.keyShare(i, seed)))
    && (forall u, a, b | lib.combine(u, [a, b]).Some? ::
          lib.combine(u, [a, b]).value ==
            lib.jointKey(multiset{(u.y, u.chaincode), (a.y, a.chaincode), (b.y, b.chaincode)}))
    && (forall i, j, k, si, sj, sk | Shares(lib, i, j, k, si, sj, sk) :: Combines(lib, i, j, k, si, sj, sk))
  }

  ghost predicate Shares(lib: Lib, i: int, j: int, k: int, si: Seed, sj: Seed, sk: Seed) {
    && {i, j, k} == {1, 2, 3} && i != j && j != k && i != k
    && i in lib.keyShare(j, sj).yShares && i in lib.keyShare(k, sk).yShares
  }

  ghost predicate Combines(lib: Lib, i: int, j: int, k: int, si: Seed, sj: Seed, sk: Seed)
    requires Shares(lib, i, j, k, si, sj, sk)
  {
    lib.combine(lib.keyShare(i, si).uShare, [lib.keyShare(j, sj).yShares[i], lib.keyShare(k, sk).yShares[i]]).Some?
  }

  ghost predicate GpgLaw(lib: Lib) {
    forall text, pub, prv, seed | lib.gpgPair(pub, prv) ::
      && pub != ""
      && lib.gpgEncrypt(text, pub, seed).Some?
      && lib.gpgDecrypt(lib.gpgEncrypt(text, pub, seed).value, prv) == Some(text)
  }

  ghost predicate CipherLaw(lib: Lib) {
    forall p, key, seed :: lib.decrypt(lib.encrypt(p, key, seed), key) == Some(p)
  }

  ghost predicate Lawful(lib: Lib) {
    CombineLaw(lib) && GpgLaw(lib) && CipherLaw(lib)
  }

  // ----- Initialize -----

  /** What one initialize call draws. */
  datatype Draw = Draw(gpgPub: string, gpgPrv: string, dataKey: string, wrappedKey: string, seed: Seed)

  datatype InitResponse = InitResponse(
    encryptedDataKey: string, encryptedData: string,
    bitgoPayload: ShareMessage, counterPartyKeyShare: Option<ShareMessage>)

  /** The share for party `to`, its secret part in the clear. */
  function ShareFor(lib: Lib, source: Source, to: Name, k: KeyShare, j: int, draw: Draw): ShareMessage
    requires j in k.yShares
  {
    var secret := Pack(k.yShares[j].u, k.yShares[j].chaincode);
    ShareMessage(NameOf(source), to, Pack(k.uShare.y, k.uShare.chaincode), secret,
                 lib.shareProof(draw.gpgPrv, Head64(secret)), k.yShares[j].v, draw.gpgPub)
  }

  function Seal(lib: Lib, m: ShareMessage, gpgPub: string, seed: Seed): Option<ShareMessage> {
    var sealed :- lib.gpgEncrypt(m.privateShare, gpgPub, seed);
    Some(m.(privateShare := sealed))
  }

  /**
    Makes this party's shares. The one for the counterparty leaves sealed when the
    counterparty's GPG key is known, and waits in the payload, unsealed, when it is not.
   */
  function Initialize(lib: Lib, source: Source, bitgoGpgPub: string, counterPartyGpgPub: Option<string>, draw: Draw)
    : Result<InitResponse>
  {
    if source == Backup && !Truthy(counterPartyGpgPub) then Err(BadRequest)
    else
      var i, j := Index(source), Index(source.Other());
      var k := lib.keyShare(i, draw.seed);
      if BITGO_INDEX !in k.yShares || j !in k.yShares then Err(Internal)
      else
        var forBitgo :- Seal(lib, ShareFor(lib, source, BitgoName, k, BITGO_INDEX, draw),
                             bitgoGpgPub, draw.seed).OkOr(Internal);
        var clear := ShareFor(lib, source, NameOf(source.Other()), k, j, draw);
        if Truthy(counterPartyGpgPub) then
          var sealed :- Seal(lib, clear, counterPartyGpgPub.value, draw.seed).OkOr(Internal);
          var payload := Payload(draw.gpgPub, draw.gpgPrv, k.uShare, None);
          Ok(InitResponse(draw.wrappedKey, lib.encrypt(payload, draw.dataKey, draw.seed), forBitgo, Some(sealed)))
        else
          var payload := Payload(draw.gpgPub, draw.gpgPrv, k.uShare, Some(clear));
          Ok(InitResponse(draw.wrappedKey, lib.encrypt(payload, draw.dataKey, draw.seed), forBitgo, None))
  }

  // ----- What leaves the AWM -----

  /** The share that party `source` made for party `j`, as a message to it; its secret part is left open. */
  predicate MadeFor(lib: Lib, m: ShareMessage, source: Source, to: Name, j: int, draw: Draw) {
    var k := lib.keyShare(if source == User then 1 else 2, draw.seed);
    && j in k.yShares
    && m.from == (if source == User then UserName else BackupName) && m.to == to && m.gpgKey == draw.gpgPub
    && m.publicShare == Pack(k.uShare.y, k.uShare.chaincode)
    && m.privateShareProof == lib.shareProof(draw.gpgPrv, Head64(SecretFor(lib, source, j, draw)))
    && m.vssProof == k.yShares[j].v
  }

  /** The secret that party `source` made for party `j`. */
  function SecretFor(lib: Lib, source: Source, j: int, draw: Draw): string {
    var k := lib.keyShare(if source == User then 1 else 2, draw.seed);
    if j in k.yShares then Pack(k.yShares[j].u, k.yShares[j].chaincode) else ""
  }

  /** A share on its way, its secret under its addressee's key. */
  predicate LeavesSealed(lib: Lib, m: ShareMessage, source: Source, to: Name, j: int, gpgPub: string, draw: Draw) {
    && MadeFor(lib, m, source, to, j, draw)
    && lib.gpgEncrypt(SecretFor(lib, source, j, draw), gpgPub, draw.seed) == Some(m.privateShare)
  }

  /** The private half of a call's own key material, kept for finalize. */
  predicate Keeps(lib: Lib, p: Payload, source: Source, draw: Draw) {
    && p.sourceGpgPub == draw.gpgPub && p.sourceGpgPrv == draw.gpgPrv
    && p.sourcePrivateShare == lib.keyShare(if source == User then 1 else 2, draw.seed).uShare
  }

  /**
    What initialize answers. Every share in the answer is under its addressee's key. The one
    for the counterparty is in the answer exactly when the counterparty's key was given, and in
    the payload, in the clear, exactly when it was not. Without that key the backup is refused.
   */
  lemma SharesLeaveSealed(lib: Lib, source: Source, bitgoGpgPub: string, counterPartyGpgPub: Option<string>,
                          draw: Draw, r: InitResponse)
    requires Initialize(lib, source, bitgoGpgPub, counterPartyGpgPub, draw) == Ok(r) && CipherLaw(lib)
    ensures var (to, j) := if source == User then (BackupName, 2) else (UserName, 1);
            var kept := lib.decrypt(r.encryptedData, draw.dataKey);
            && r.encryptedDataKey == draw.wrappedKey
            && LeavesSealed(lib, r.bitgoPayload, source, BitgoName, 3, bitgoGpgPub, draw)
            && (r.counterPartyKeyShare.Some? <==> counterPartyGpgPub.Some? && counterPartyGpgPub.value != "")
            && kept.Some? && Keeps(lib, kept.value, source, draw)
            && (kept.value.counterPartyKeyShare.Some? <==> r.counterPartyKeyShare.None?)
            && match r.counterPartyKeyShare
               case Some(m) => LeavesSealed(lib, m, source, to, j, counterPartyGpgPub.value, draw)
               case None =>
                 && source == User
                 && MadeFor(lib, kept.value.counterPartyKeyShare.value, source, to, j, draw)
                 && kept.value.counterPartyKeyShare.value.privateShare == SecretFor(lib, source, j, draw)
  {
    hide Pack, Head64, Seal;
    var k := lib.keyShare(Index(source), draw.seed);
    var j := Index(source.Other());
    SealIs(lib, ShareFor(lib, source, BitgoName, k, BITGO_INDEX, draw), bitgoGpgPub, draw.seed);
    if Truthy(counterPartyGpgPub) {
      SealIs(lib, ShareFor(lib, source, NameOf(source.Other()), k, j, draw), counterPartyGpgPub.value, draw.seed);
    }
  }

  lemma SealIs(lib: Lib, m: ShareMessage, gpgPub: string, seed: Seed)
    ensures Seal(lib, m, gpgPub, seed) ==
              match lib.gpgEncrypt(m.privateShare, gpgPub, seed)
              case None => None
              case Some(x) =>
                Some(ShareMessage(m.from, m.to, m.publicShare, x, m.privateShareProof, m.vssProof, m.gpgKey))
  {
  }

  /** When initialize answers: the backup needs the user's key, and every share made must seal. */
  lemma InitializeAnswers(lib: Lib, source: Source, bitgoGpgPub: string, counterPartyGpgPub: Option<string>, draw: Draw)
    ensures var j := if source == User then 2 else 1;
            var given := counterPartyGpgPub.Some? && counterPartyGpgPub.value != "";
            var r := Initialize(lib, source, bitgoGpgPub, counterPartyGpgPub, draw);
            && (r == Err(BadRequest) <==> source == Backup && !given)
            && (r.Ok? <==>
                  && (source == Backup ==> given)
                  && {3, j} <= lib.keyShare(if source == User then 1 else 2, draw.seed).yShares.Keys
                  && lib.gpgEncrypt(SecretFor(lib, source, 3, draw), bitgoGpgPub, draw.seed).Some?
                  && (given ==>
                        lib.gpgEncrypt(SecretFor(lib, source, j, draw), counterPartyGpgPub.value, draw.seed).Some?))
  {
    hide Pack, Head64;
  }

  // ----- Finalize -----

  datatype FinalizeInput = FinalizeInput(
    source: Source, encryptedDataKey: string, encryptedData: string, counterPartyGpgPub: string,
    bitgoKeychain: Keychain, coin: string, counterPartyKeyShare: ShareMessage)

  datatype SigningMaterial = SigningMaterial(
    uShare: UShare, bitgoYShare: YShare, backupYShare: Option<YShare>, userYShare: Option<YShare>)

  datatype StoredKey = StoredKey(pub: string, prv: SigningMaterial, source: Source, coin: string)

  datatype FinalizeResponse = FinalizeResponse(
    counterpartyKeyShare: Option<ShareMessage>, source: Source, commonKeychain: string)

  datatype FinalizeOutcome = FinalizeOutcome(stored: Option<StoredKey>, result: Result<FinalizeResponse>)

  function FindShare(shares: seq<ShareMessage>, to: Name): Option<ShareMessage> {
    if shares == [] then None else if shares[0].to == to then Some(shares[0]) else FindShare(shares[1..], to)
  }

  /** A share rebuilt by its addressee from a message and its opened secret. */
  function Rebuild(to: int, from: int, m: ShareMessage, secret: string): YShare {
    YShare(to, from, Head64(m.publicShare), m.vssProof, Head64(secret), Tail64(secret))
  }

  function Material(source: Source, own: UShare, bitgo: YShare, counterParty: YShare): SigningMaterial {
    if source == User then SigningMaterial(own, bitgo, Some(counterParty), None)
    else SigningMaterial(own, bitgo, None, Some(counterParty))
  }

  function VerificationOf(req: FinalizeInput, state: Payload, secret: string): Verification {
    Verification(if req.source == User then state.sourceGpgPub else req.counterPartyGpgPub,
                 if req.source == User then req.counterPartyGpgPub else state.sourceGpgPub,
                 req.bitgoKeychain, secret, Index(req.source))
  }

  /** The key that finalize is about to store, or the error that stops it earlier. */
  function KeyToStore(lib: Lib, req: FinalizeInput, state: Payload): Result<StoredKey> {
    var i, j := Index(req.source), Index(req.source.Other());
    var bitgo :- FindShare(req.bitgoKeychain.keyShares, NameOf(req.source)).OkOr(Internal);
    var bitgoSecret :- lib.gpgDecrypt(bitgo.privateShare, state.sourceGpgPrv).OkOr(Internal);
    if !lib.verify(VerificationOf(req, state, bitgoSecret)) then Err(Internal)
    else
      var bitgoShare := Rebuild(i, BITGO_INDEX, bitgo, bitgoSecret);
      var secret :- lib.gpgDecrypt(req.counterPartyKeyShare.privateShare, state.sourceGpgPrv).OkOr(Internal);
      var share := Rebuild(i, j, req.counterPartyKeyShare, secret);
      var combined :- lib.combine(state.sourcePrivateShare, [bitgoShare, share]).OkOr(Internal);
      if combined.y + combined.chaincode != req.bitgoKeychain.commonKeychain then Err(Internal)
      else
        Ok(StoredKey(combined.y + combined.chaincode,
                     Material(req.source, state.sourcePrivateShare, bitgoShare, share), req.source, req.coin))
  }

  /** The share that waited in the payload, now sealed for the counterparty. */
  function Deferred(lib: Lib, req: FinalizeInput, state: Payload, seed: Seed): Result<Option<ShareMessage>> {
    if state.counterPartyKeyShare.None? || req.counterPartyGpgPub == "" then Ok(state.counterPartyKeyShare)
    else
      var sealed :- Seal(lib, state.counterPartyKeyShare.value, req.counterPartyGpgPub, seed).OkOr(Internal);
      Ok(Some(sealed))
  }

  function OpenPayload(lib: Lib, unwrapKey: string -> Option<string>, req: FinalizeInput): Option<Payload> {
    var key :- unwrapKey(req.encryptedDataKey);
    lib.decrypt(req.encryptedData, key)
  }

  /** The specification of finalize: the key it leaves in the store, and its answer. */
  function Finalize(lib: Lib, unwrapKey: string -> Option<string>, req: FinalizeInput, seed: Seed, post: Post)
    : FinalizeOutcome
  {
    match OpenPayload(lib, unwrapKey, req)
    case None => FinalizeOutcome(None, Err(Internal))
    case Some(state) =>
      match KeyToStore(lib, req, state)
      case Err(e) => FinalizeOutcome(None, Err(e))
      case Ok(key) =>
        if post == Refused then FinalizeOutcome(None, Err(Network))
        else if post == StoredButLost then FinalizeOutcome(Some(key), Err(Network))
        else
          match Deferred(lib, req, state, seed)
          case Err(e) => FinalizeOutcome(Some(key), Err(e))
          case Ok(share) => FinalizeOutcome(Some(key), Ok(FinalizeResponse(share, req.source, key.pub)))
  }

  // ----- What finalize stores and answers -----

  /** The share for a party is the first one addressed to it. */
  lemma {:induction false} FindShareIs(shares: seq<ShareMessage>, to: Name, m: ShareMessage)
    ensures FindShare(shares, to) == Some(m) <==>
              exists n ::
                0 <= n < |shares| && shares[n] == m && m.to == to && forall i | 0 <= i < n :: shares[i].to != to
  {
    if shares != [] && shares[0].to != to {
      FindShareIs(shares[1..], to, m);
      if FindShare(shares, to) == Some(m) {
        var n :| 0 <= n < |shares[1..]| && shares[1..][n] == m && m.to == to
                 && forall i | 0 <= i < n :: shares[1..][i].to != to;
        assert shares[n + 1] == m && forall i | 0 <= i < n + 1 :: i == 0 || shares[i] == shares[1..][i - 1];
      }
      if n :| 0 <= n < |shares| && shares[n] == m && m.to == to && forall i | 0 <= i < n :: shares[i].to != to {
        assert shares[1..][n - 1] == m && forall i | 0 <= i < n - 1 :: shares[1..][i] == shares[i + 1];
      }
    }
  }

  /** What a message and its opened secret say: each half of the two is one 64-digit field. */
  function Opened(to: int, from: int, m: ShareMessage, secret: string): YShare {
    YShare(i := to, j := from, y := Head64(m.publicShare), v := m.vssProof,
           u := Head64(secret), chaincode := Tail64(secret))
  }

  /**
    The key that is stored, for any request whatever: both shares are opened with this party's
    own key, the signature check is asked about both parties' keys under their own names, and
    what the three shares combine to is the keychain BitGo named.
   */
  lemma StoredExactly(lib: Lib, req: FinalizeInput, state: Payload, key: StoredKey)
    ensures var user := req.source == User;
            var (i, j) := if user then (1, 2) else (2, 1);
            KeyToStore(lib, req, state) == Ok(key) <==>
              exists m: ShareMessage, fromBitgo: string, fromOther: string, combined: Combined ::
                && FindShare(req.bitgoKeychain.keyShares, if user then UserName else BackupName) == Some(m)
                && lib.gpgDecrypt(m.privateShare, state.sourceGpgPrv) == Some(fromBitgo)
                && lib.verify(Verification(
                     userGpgPub := if user then state.sourceGpgPub else req.counterPartyGpgPub,
                     backupGpgPub := if user then req.counterPartyGpgPub else state.sourceGpgPub,
                     keychain := req.bitgoKeychain, bitgoPrivateShare := fromBitgo, index := i))
                && lib.gpgDecrypt(req.counterPartyKeyShare.privateShare, state.sourceGpgPrv) == Some(fromOther)
                && var bitgo, other := Opened(i, 3, m, fromBitgo), Opened(i, j, req.counterPartyKeyShare, fromOther);
                && lib.combine(state.sourcePrivateShare, [bitgo, other]) == Some(combined)
                && combined.y + combined.chaincode == req.bitgoKeychain.commonKeychain
                && key == StoredKey(
                     pub := req.bitgoKeychain.commonKeychain,
                     prv := SigningMaterial(uShare := state.sourcePrivateShare, bitgoYShare := bitgo,
                                            backupYShare := if user then Some(other) else None,
                                            userYShare := if user then None else Some(other)),
                     source := req.source, coin := req.coin)
  {
    hide FindShare, Head64, Tail64;
  }

  /**
    The answer of finalize, and the key it leaves. The key is stored as soon as the provider
    takes it; the deferred share leaves under the counterparty's key when that was given, and
    as it was kept when it was not.
   */
  lemma FinalizeAnswers(lib: Lib, unwrapKey: string -> Option<string>, req: FinalizeInput, seed: Seed, post: Post,
                        r: FinalizeResponse, key: StoredKey)
    ensures var dataKey := unwrapKey(req.encryptedDataKey);
            var o := Finalize(lib, unwrapKey, req, seed, post);
            var state := if dataKey.Some? then lib.decrypt(req.encryptedData, dataKey.value) else None;
            && (o.stored == Some(key) <==>
                  state.Some? && KeyToStore(lib, req, state.value) == Ok(key) && post != Refused)
            && (o.result == Ok(r) <==>
                  && o.stored.Some? && post == Acknowledged
                  && r.source == req.source && r.commonKeychain == o.stored.value.pub
                  && match state.value.counterPartyKeyShare
                     case None => r.counterpartyKeyShare == None
                     case Some(m) =>
                       if req.counterPartyGpgPub == "" then r.counterpartyKeyShare == Some(m)
                       else
                         var x := lib.gpgEncrypt(m.privateShare, req.counterPartyGpgPub, seed);
                         x.Some? && r.counterpartyKeyShare == Some(
                           ShareMessage(m.from, m.to, m.publicShare, x.value,
                                        m.privateShareProof, m.vssProof, m.gpgKey)))
  {
    hide KeyToStore;
  }

  /** The server's finalize, step by step, with its key store. */
  class EddsaServer {
    const lib: Lib
    const unwrapKey: string -> Option<string>
    var storedKeys: seq<StoredKey>

    constructor (lib: Lib, unwrapKey: string -> Option<string>)
      ensures this.lib == lib && this.unwrapKey == unwrapKey && storedKeys == []
    {
      this.lib, this.unwrapKey, storedKeys := lib, unwrapKey, [];
    }

    method HandleFinalize(req: FinalizeInput, seed: Seed, post: Post) returns (r: Result<FinalizeResponse>)
      modifies this`storedKeys
      ensures r == Finalize(lib, unwrapKey, req, seed, post).result
      ensures storedKeys == match Finalize(lib, unwrapKey, req, seed, post).stored
                            case None => old(storedKeys)
                            case Some(key) => old(storedKeys) + [key]
    {
      var key :- unwrapKey(req.encryptedDataKey).OkOr(Internal);
      var state :- lib.decrypt(req.encryptedData, key).OkOr(Internal);
      var sourceToCounterParty := state.counterPartyKeyShare;

      var bitgo :- FindShare(req.bitgoKeychain.keyShares, NameOf(req.source)).OkOr(Internal);
      var bitgoSecret :- lib.gpgDecrypt(bitgo.privateShare, state.sourceGpgPrv).OkOr(Internal);
      if !lib.verify(VerificationOf(req, state, bitgoSecret)) {
        return Err(Internal);
      }
      var bitgoShare := Rebuild(Index(req.source), BITGO_INDEX, bitgo, bitgoSecret);
      var secret :- lib.gpgDecrypt(req.counterPartyKeyShare.privateShare, state.sourceGpgPrv).OkOr(Internal);
      var share := Rebuild(Index(req.source), Index(req.source.Other()), req.counterPartyKeyShare, secret);

      var combined :- lib.combine(state.sourcePrivateShare, [bitgoShare, share]).OkOr(Internal);
      var commonKeychain := combined.y + combined.chaincode;
      if commonKeychain != req.bitgoKeychain.commonKeychain {
        return Err(Internal);
      }
      var material := SigningMaterial(state.sourcePrivateShare, bitgoShare, None, None);
      if req.source == User {
        material := material.(backupYShare := Some(share));
      } else {
        material := material.(userYShare := Some(share));
      }
      if post != Refused {
        storedKeys := storedKeys + [StoredKey(commonKeychain, material, req.source, req.coin)];
      }
      if post != Acknowledged {
        return Err(Network);
      }
      if sourceToCounterParty.Some? && req.counterPartyGpgPub != "" {
        var sealed :- lib.gpgEncrypt(sourceToCounterParty.value.privateShare,
                                     req.counterPartyGpgPub, seed).OkOr(Internal);
        sourceToCounterParty := Some(sourceToCounterParty.value.(privateShare := sealed));
      }
      return Ok(FinalizeResponse(sourceToCounterParty, req.source, commonKeychain));
    }
  }
}
