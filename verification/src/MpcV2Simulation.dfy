/**
  Complete key generation runs, and the protocol they are meant to carry out.

  The ideal protocol is synchronous: three parties, kept in memory, put their messages into a
  common pool at the end of each round, and each party's next inbox is what the pool holds
  for its address. The real run has two AWMs that keep nothing, four callbacks that fuse
  rounds 2 and 3, and round-3 messages that BitGo gets only together with round 4.
 */
module MpcV2Simulation {
  import opened Prelude
  import opened MpcV2Awm
  import opened MpcV2Orchestrator
  import opened MpcV2Party

  /** What BitGo hears from the other two parties in one round. */
  datatype Heard<T> = Heard(user: T, backup: T)

  /** What BitGo is given first: the other two's GPG keys and round-1 broadcasts. */
  datatype Opening = Opening(keys: Heard<string>, broadcasts: Heard<Broadcast>)

  datatype BitgoRound3 = BitgoRound3(commitment: Option<string>, toUser: SdkP2P, toBackup: SdkP2P)

  /** BitGo's party: what it sends in each round, given everything it has heard so far. */
  datatype Bitgo = Bitgo(
    gpgKey: string,
    round1: SdkBroadcast,
    round2: Opening -> (SdkP2P, SdkP2P),
    round3: (Opening, Heard<P2P>) -> BitgoRound3,
    round4: (Opening, Heard<P2P>, Heard<P2P>) -> SdkBroadcast,
    keychain: (Opening, Heard<P2P>, Heard<P2P>, Heard<Broadcast>) -> string)

  /** The fresh keys and the chance events of a run. */
  datatype Chance = Chance(
    coin: string,
    userKeys: InitKeys, backupKeys: InitKeys,
    userInit: bool, backupInit: bool,
    user1: Coins, backup1: Coins, user2: Coins, backup2: Coins,
    user3: Coins, backup3: Coins, user4: Coins, backup4: Coins,
    userEnd: Coins, backupEnd: Coins, userPost: Post, backupPost: Post)

  // Every call of a stage is answered, and in the end the key provider takes both keys.
  predicate Undisturbed1(c: Chance) { c.userInit && c.backupInit && c.user1.delivered && c.backup1.delivered }
  predicate Undisturbed2(c: Chance) {
    c.user2.delivered && c.backup2.delivered && c.user3.delivered && c.backup3.delivered
  }
  predicate Undisturbed3(c: Chance) { c.user4.delivered && c.backup4.delivered }
  predicate UndisturbedEnd(c: Chance) {
    c.userEnd.delivered && c.backupEnd.delivered && c.userPost.Acknowledged? && c.backupPost.Acknowledged?
  }

  predicate Undisturbed(c: Chance) {
    Undisturbed1(c) && Undisturbed2(c) && Undisturbed3(c) && UndisturbedEnd(c)
  }

  /** What the two AWMs received in one round. */
  datatype Inboxes = Inboxes(user: Mail, backup: Mail)

  /** Everything that moved in a run: each AWM's inboxes, what BitGo heard, and the outcome. */
  datatype Transcript = Transcript(
    in2: Inboxes, in3: Inboxes, in4: Inboxes, end: Inboxes,
    heard1: Opening, heard2: Heard<P2P>, heard3: Heard<P2P>, heard4: Heard<Broadcast>,
    keychain: string, userKey: StoredKey, backupKey: StoredKey)

  // ----- The ideal protocol -----

  function FindBroadcast(ms: seq<Broadcast>, from: int): Option<Broadcast> {
    if ms == [] then None else if ms[0].from == from then Some(ms[0]) else FindBroadcast(ms[1..], from)
  }

  function FindBetween(ms: seq<P2P>, from: int, to: int): Option<P2P> {
    if ms == [] then None
    else if ms[0].from == from && ms[0].to == to then Some(ms[0])
    else FindBetween(ms[1..], from, to)
  }

  /** The pool after a round: what the three parties sent. */
  function Pool(bitgo: Mail, backup: Mail, user: Mail): Mail {
    Mail(bitgo.broadcasts + backup.broadcasts + user.broadcasts, bitgo.p2ps + backup.p2ps + user.p2ps)
  }

  function BroadcastInbox(pool: Mail, source: Source): Option<Mail> {
    var bitgo :- FindBroadcast(pool.broadcasts, BITGO);
    var other :- FindBroadcast(pool.broadcasts, PartyOf(source.Other()));
    Some(Mail([bitgo, other], []))
  }

  function P2PInbox(pool: Mail, source: Source): Option<Mail> {
    var bitgo :- FindBetween(pool.p2ps, BITGO, PartyOf(source));
    var other :- FindBetween(pool.p2ps, PartyOf(source.Other()), PartyOf(source));
    Some(Mail([], [bitgo, other]))
  }

  function HeardBroadcasts(pool: Mail): Option<Heard<Broadcast>> {
    var user :- FindBroadcast(pool.broadcasts, USER);
    var backup :- FindBroadcast(pool.broadcasts, BACKUP);
    Some(Heard(user, backup))
  }

  function HeardP2Ps(pool: Mail): Option<Heard<P2P>> {
    var user :- FindBetween(pool.p2ps, USER, BITGO);
    var backup :- FindBetween(pool.p2ps, BACKUP, BITGO);
    Some(Heard(user, backup))
  }

  // BitGo's messages as they enter the pool: nothing of them is lost or changed.

  function BitgoBroadcast(m: SdkBroadcast): Mail {
    Mail([Broadcast(m.from, Signed(m.message, m.signature))], [])
  }

  function BitgoP2Ps(toUser: SdkP2P, toBackup: SdkP2P, commitment: Option<string>): Mail {
    Mail([], [P2P(toUser.from, toUser.to, Sealed(toUser.encryptedMessage, toUser.signature), commitment),
              P2P(toBackup.from, toBackup.to, Sealed(toBackup.encryptedMessage, toBackup.signature), commitment)])
  }

  /** The two in-memory parties and the pool, after a round. */
  datatype Net = Net(user: Local, backup: Local, pool: Mail)

  function Ideal1(u: Env, b: Env, g: Bitgo, c: Chance): Option<Net> {
    var (user, userOut) :- Start(u, User, c.userKeys.gpgPrv, g.gpgKey, c.backupKeys.gpgPub, c.user1.seed);
    var (backup, backupOut) :- Start(b, Backup, c.backupKeys.gpgPrv, g.gpgKey, c.userKeys.gpgPub, c.backup1.seed);
    Some(Net(user, backup, Pool(BitgoBroadcast(g.round1), backupOut, userOut)))
  }

  /** One round of the network: both parties hear their inboxes while BitGo sends `bitgoOut`. */
  function IdealRound(u: Env, b: Env, n: Net, boxes: Inboxes, bitgoOut: Mail, userSeed: Seed, backupSeed: Seed)
    : Option<Net>
  {
    var (user, userOut) :- Hear(u, n.user, boxes.user, userSeed);
    var (backup, backupOut) :- Hear(b, n.backup, boxes.backup, backupSeed);
    Some(Net(user, backup, Pool(bitgoOut, backupOut, userOut)))
  }

  function BroadcastInboxes(pool: Mail): Option<Inboxes> {
    var user :- BroadcastInbox(pool, User);
    var backup :- BroadcastInbox(pool, Backup);
    Some(Inboxes(user, backup))
  }

  function P2PInboxes(pool: Mail): Option<Inboxes> {
    var user :- P2PInbox(pool, User);
    var backup :- P2PInbox(pool, Backup);
    Some(Inboxes(user, backup))
  }

  /** Round 1: both parties start and everyone broadcasts. */
  function Ideal(u: Env, b: Env, g: Bitgo, c: Chance): Option<Transcript> {
    var n1 :- Ideal1(u, b, g, c);
    Ideal2(u, b, g, c, n1)
  }

  /** BitGo is told the GPG keys that the two AWMs drew. */
  function IdealOpening(c: Chance, broadcasts: Heard<Broadcast>): Opening {
    Opening(Heard(c.userKeys.gpgPub, c.backupKeys.gpgPub), broadcasts)
  }

  /** Round 2: broadcasts in, p2p messages out. */
  function Ideal2(u: Env, b: Env, g: Bitgo, c: Chance, n1: Net): Option<Transcript> {
    var broadcasts :- HeardBroadcasts(n1.pool);
    var in2 :- BroadcastInboxes(n1.pool);
    var h1 := IdealOpening(c, broadcasts);
    var bitgo := g.round2(h1);
    var n2 :- IdealRound(u, b, n1, in2, BitgoP2Ps(bitgo.0, bitgo.1, None), c.user2.seed, c.backup2.seed);
    Ideal3(u, b, g, c, n2, h1, in2)
  }

  /** Round 3: p2p messages in, p2p messages out. */
  function Ideal3(u: Env, b: Env, g: Bitgo, c: Chance, n2: Net, h1: Opening, in2: Inboxes)
    : Option<Transcript>
  {
    var h2 :- HeardP2Ps(n2.pool);
    var in3 :- P2PInboxes(n2.pool);
    var bitgo := g.round3(h1, h2);
    var n3 :- IdealRound(u, b, n2, in3, BitgoP2Ps(bitgo.toUser, bitgo.toBackup, bitgo.commitment),
                         c.user3.seed, c.backup3.seed);
    Ideal4(u, b, g, c, n3, h1, h2, in2, in3)
  }

  /** Round 4: p2p messages in, broadcasts out. */
  function Ideal4(u: Env, b: Env, g: Bitgo, c: Chance, n3: Net, h1: Opening, h2: Heard<P2P>,
                  in2: Inboxes, in3: Inboxes): Option<Transcript>
  {
    var h3 :- HeardP2Ps(n3.pool);
    var in4 :- P2PInboxes(n3.pool);
    var bitgo := g.round4(h1, h2, h3);
    var n4 :- IdealRound(u, b, n3, in4, BitgoBroadcast(bitgo), c.user4.seed, c.backup4.seed);
    IdealEnd(u, b, g, c, n4, h1, h2, h3, in2, in3, in4)
  }

  /** The end: everyone takes in the last broadcasts and must hold the same keychain. */
  function IdealEnd(u: Env, b: Env, g: Bitgo, c: Chance, n4: Net, h1: Opening, h2: Heard<P2P>, h3: Heard<P2P>,
                    in2: Inboxes, in3: Inboxes, in4: Inboxes): Option<Transcript>
  {
    var h4 :- HeardBroadcasts(n4.pool);
    var end :- BroadcastInboxes(n4.pool);
    var keychain := g.keychain(h1, h2, h3, h4);
    var userShare :- Finish(u, n4.user, end.user, c.userEnd.seed);
    var backupShare :- Finish(b, n4.backup, end.backup, c.backupEnd.seed);
    if u.commonKeychain(userShare) != keychain || b.commonKeychain(backupShare) != keychain then None
    else
      Some(Transcript(in2, in3, in4, end, h1, h2, h3, h4, keychain,
                      StoredKey(c.coin, User, keychain, userShare), StoredKey(c.coin, Backup, keychain, backupShare)))
  }

  // ----- The real run -----

  /** The messages an AWM call carried. */
  function Delivered(c: AwmCall): Mail {
    match c
    case InitCall(_, _) => Mail([], [])
    case RoundCall(_, _, input, _) => IncomingMail(input)
    case FinalizeCall(_, _, final, _) => Mail(final.broadcastMessages.Values(), [])
  }

  /** What the initialize callback returned for BitGo. */
  function OpeningOf(o: InitializeOutput): Opening {
    Opening(Heard(o.userGpgPublicKey, o.backupGpgPublicKey), Heard(o.userBroadcast, o.backupBroadcast))
  }

  function InitializeArgs(g: Bitgo, c: Chance): InitializeInput {
    InitializeInput(g.gpgKey, c.userKeys, c.backupKeys, c.userInit, c.backupInit, c.user1, c.backup1)
  }

  function Round2Args(g: Bitgo, c: Chance, o: InitializeOutput): Round2Input {
    var bitgo2 := g.round2(OpeningOf(o));
    Round2Input(g.round1, bitgo2.0, bitgo2.1, o.userState, o.backupState, c.user2, c.backup2, c.user3, c.backup3)
  }

  function Round3Args(g: Bitgo, c: Chance, h1: Opening, o: Round2Output): Round3Input {
    var bitgo3 := g.round3(h1, Heard(o.userP2p, o.backupP2p));
    Round3Input(bitgo3.commitment, bitgo3.toUser, bitgo3.toBackup, o.userState, o.backupState, c.user4, c.backup4)
  }

  function FinalizeArgs(g: Bitgo, c: Chance, h1: Opening, h2: Heard<P2P>, o: Round3Output): FinalInput {
    var h3 := Heard(o.userP2p, o.backupP2p);
    FinalInput(g.round4(h1, h2, h3), g.keychain(h1, h2, h3, Heard(o.userBroadcast, o.backupBroadcast)), c.coin,
               o.userState, o.backupState, c.userEnd.seed, c.backupEnd.seed, c.userPost, c.backupPost,
               c.userEnd.delivered, c.backupEnd.delivered)
  }

  function Boxes(user: AwmCall, backup: AwmCall): Inboxes {
    Inboxes(Delivered(user), Delivered(backup))
  }

  /** The SDK runs the four callbacks in turn, relaying to and from BitGo, on two real AWMs. */
  function Real(u: Env, b: Env, g: Bitgo, c: Chance): Option<Transcript> {
    var o := InitializeStep(Server(u), Server(b), FRESH, InitializeArgs(g, c));
    var r1 :- o.result.ToOption();
    Real2(u, b, g, c, o.closure, r1)
  }

  function Real2(u: Env, b: Env, g: Bitgo, c: Chance, k: Closure, r1: InitializeOutput): Option<Transcript> {
    var o := Round2Step(Server(u), Server(b), k, Round2Args(g, c, r1));
    var r2 :- o.result.ToOption();
    if |o.calls| != 4 then None
    else
      Real3(u, b, g, c, o.closure, OpeningOf(r1), r2,
            Boxes(o.calls[0], o.calls[1]), Boxes(o.calls[2], o.calls[3]))
  }

  function Real3(u: Env, b: Env, g: Bitgo, c: Chance, k: Closure, h1: Opening, r2: Round2Output,
                 in2: Inboxes, in3: Inboxes): Option<Transcript>
  {
    var o := Round3Step(Server(u), Server(b), k, Round3Args(g, c, h1, r2));
    var r3 :- o.result.ToOption();
    if |o.calls| != 2 then None
    else
      RealEnd(u, b, g, c, o.closure, h1, Heard(r2.userP2p, r2.backupP2p), r3, in2, in3, Boxes(o.calls[0], o.calls[1]))
  }

  function RealEnd(u: Env, b: Env, g: Bitgo, c: Chance, k: Closure, h1: Opening, h2: Heard<P2P>,
                   r3: Round3Output, in2: Inboxes, in3: Inboxes, in4: Inboxes): Option<Transcript>
  {
    var o := FinalizeStep(Server(u), Server(b), k, FinalizeArgs(g, c, h1, h2, r3));
    var keychain :- o.result.ToOption();
    if |o.calls| != 2 || !Stored(o.calls[0]) || !Stored(o.calls[1]) then None
    else
      Some(Transcript(in2, in3, in4, Boxes(o.calls[0], o.calls[1]),
                      h1, h2, Heard(r3.userP2p, r3.backupP2p), Heard(r3.userBroadcast, r3.backupBroadcast), keychain,
                      o.calls[0].outcome.stored.value, o.calls[1].outcome.stored.value))
  }

  predicate Stored(c: AwmCall) {
    c.FinalizeCall? && c.outcome.stored.Some?
  }

  // BitGo's messages, as the transcript has them, are labelled from BitGo to where they go.
  predicate Addressed2(g: Bitgo, t: Transcript) { FromBitgo(g.round2(t.heard1).0, g.round2(t.heard1).1) }
  predicate Addressed3(g: Bitgo, t: Transcript) {
    FromBitgo(g.round3(t.heard1, t.heard2).toUser, g.round3(t.heard1, t.heard2).toBackup)
  }
  predicate Addressed4(g: Bitgo, t: Transcript) { g.round4(t.heard1, t.heard2, t.heard3).from == BITGO }

  predicate Addressed(g: Bitgo, t: Transcript) {
    g.round1.from == BITGO && Addressed2(g, t) && Addressed3(g, t) && Addressed4(g, t)
  }

  // ----- Finding messages by address -----

  lemma {:induction false} FindBroadcastConcat(a: seq<Broadcast>, b: seq<Broadcast>, from: int)
    ensures FindBroadcast(a + b, from) ==
              if FindBroadcast(a, from).Some? then FindBroadcast(a, from) else FindBroadcast(b, from)
  {
    if a == [] {
      assert a + b == b;
    } else {
      assert (a + b)[1..] == a[1..] + b;
      FindBroadcastConcat(a[1..], b, from);
    }
  }

  lemma {:induction false} FindBetweenConcat(a: seq<P2P>, b: seq<P2P>, from: int, to: int)
    ensures FindBetween(a + b, from, to) ==
              if FindBetween(a, from, to).Some? then FindBetween(a, from, to) else FindBetween(b, from, to)
  {
    if a == [] {
      assert a + b == b;
    } else {
      assert (a + b)[1..] == a[1..] + b;
      FindBetweenConcat(a[1..], b, from, to);
    }
  }

  /** In one party's batch, finding a broadcast by sender is taking the first. */
  lemma FindInBatch(p: int, m: Mail, from: int)
    requires AddressedBy(p, m)
    ensures FindBroadcast(m.broadcasts, from) == if from == p then First(m.broadcasts) else None
  {
    if m.broadcasts != [] {
      assert m.broadcasts[0] in m.broadcasts;
      assert FindBroadcast(m.broadcasts[1..], from) == None;
    }
  }

  lemma FindP2PInTwo(ms: seq<P2P>, toBitgo: bool)
    requires |ms| == 2
    ensures FindP2P(ms, toBitgo) ==
              if (ms[0].to == BITGO) == toBitgo then Some(ms[0])
              else if (ms[1].to == BITGO) == toBitgo then Some(ms[1]) else None
  {
    assert FindP2P(ms[1..], toBitgo) ==
             if (ms[1].to == BITGO) == toBitgo then Some(ms[1]) else FindP2P(ms[1..][1..], toBitgo);
  }

  lemma FindBetweenInTwo(ms: seq<P2P>, from: int, to: int)
    requires |ms| == 2
    ensures FindBetween(ms, from, to) ==
              if ms[0].from == from && ms[0].to == to then Some(ms[0])
              else if ms[1].from == from && ms[1].to == to then Some(ms[1]) else None
  {
    assert FindBetween(ms[1..], from, to) ==
             if ms[1].from == from && ms[1].to == to then Some(ms[1]) else FindBetween(ms[1..][1..], from, to);
  }

  /** In an AWM's batch, finding a p2p message by address is what the handler's split does. */
  lemma FindP2PInBatch(source: Source, m: Mail, from: int, to: int)
    requires AddressedBy(PartyOf(source), m)
    requires to == BITGO || to == PartyOf(source.Other())
    ensures FindBetween(m.p2ps, from, to) ==
              if from != PartyOf(source) || m.p2ps == [] then None else FindP2P(m.p2ps, to == BITGO)
    ensures from == PartyOf(source) && m.p2ps != [] ==> FindBetween(m.p2ps, from, to).Some?
  {
    if m.p2ps != [] {
      FindBetweenInTwo(m.p2ps, from, to);
      FindP2PInTwo(m.p2ps, to == BITGO);
      var tos := {m.p2ps[0].to, m.p2ps[1].to};
      assert tos == {USER, BACKUP, BITGO} - {PartyOf(source)};
      assert BITGO in tos && PartyOf(source.Other()) in tos && PartyOf(source) !in tos;
    }
  }

  /** Broadcast lookups in a pool whose BitGo part is one broadcast from BitGo. */
  lemma LookupBroadcasts(bitgo: Broadcast, backup: Mail, user: Mail)
    requires bitgo.from == BITGO && AddressedBy(BACKUP, backup) && AddressedBy(USER, user)
    ensures var pool := Pool(Mail([bitgo], []), backup, user);
            && FindBroadcast(pool.broadcasts, BITGO) == Some(bitgo)
            && FindBroadcast(pool.broadcasts, BACKUP) == First(backup.broadcasts)
            && FindBroadcast(pool.broadcasts, USER) == First(user.broadcasts)
  {
    var pool := Pool(Mail([bitgo], []), backup, user);
    forall from | from == BITGO || from == BACKUP || from == USER
      ensures FindBroadcast(pool.broadcasts, from) ==
                if from == BITGO then Some(bitgo)
                else if from == BACKUP then First(backup.broadcasts) else First(user.broadcasts)
    {
      FindBroadcastConcat([bitgo] + backup.broadcasts, user.broadcasts, from);
      FindBroadcastConcat([bitgo], backup.broadcasts, from);
      FindInBatch(BACKUP, backup, from);
      FindInBatch(USER, user, from);
      assert FindBroadcast([bitgo], from) == if from == BITGO then Some(bitgo) else FindBroadcast([bitgo][1..], from);
    }
  }

  /** A p2p lookup looks at BitGo's batch, then the backup's, then the user's. */
  lemma LookupP2P(bitgo: Mail, backup: Mail, user: Mail, from: int, to: int)
    ensures var pool := Pool(bitgo, backup, user);
            FindBetween(pool.p2ps, from, to) ==
              if FindBetween(bitgo.p2ps, from, to).Some? then FindBetween(bitgo.p2ps, from, to)
              else if FindBetween(backup.p2ps, from, to).Some? then FindBetween(backup.p2ps, from, to)
              else FindBetween(user.p2ps, from, to)
  {
    FindBetweenConcat(bitgo.p2ps + backup.p2ps, user.p2ps, from, to);
    FindBetweenConcat(bitgo.p2ps, backup.p2ps, from, to);
  }

  /** The message of an AWM's batch for BitGo, or for the other AWM. */
  function PartFor(m: Mail, toBitgo: bool): Option<P2P> {
    if m.p2ps == [] then None else FindP2P(m.p2ps, toBitgo)
  }

  /** P2p lookups in a pool whose BitGo part is properly addressed. */
  lemma LookupP2Ps(toUser: SdkP2P, toBackup: SdkP2P, commitment: Option<string>, backup: Mail, user: Mail)
    requires FromBitgo(toUser, toBackup) && AddressedBy(BACKUP, backup) && AddressedBy(USER, user)
    ensures var pool := Pool(BitgoP2Ps(toUser, toBackup, commitment), backup, user);
            && FindBetween(pool.p2ps, BITGO, USER) == Some(FormatP2P(toUser, commitment))
            && FindBetween(pool.p2ps, BITGO, BACKUP) == Some(FormatP2P(toBackup, commitment))
            && FindBetween(pool.p2ps, BACKUP, USER) == PartFor(backup, false)
            && FindBetween(pool.p2ps, USER, BACKUP) == PartFor(user, false)
            && FindBetween(pool.p2ps, BACKUP, BITGO) == PartFor(backup, true)
            && FindBetween(pool.p2ps, USER, BITGO) == PartFor(user, true)
  {
    var bitgo := BitgoP2Ps(toUser, toBackup, commitment);
    FindBetweenInTwo(bitgo.p2ps, BITGO, USER);
    FindBetweenInTwo(bitgo.p2ps, BITGO, BACKUP);
    FindBetweenInTwo(bitgo.p2ps, BACKUP, USER);
    FindBetweenInTwo(bitgo.p2ps, USER, BACKUP);
    FindBetweenInTwo(bitgo.p2ps, BACKUP, BITGO);
    FindBetweenInTwo(bitgo.p2ps, USER, BITGO);
    LookupP2P(bitgo, backup, user, BITGO, USER);
    LookupP2P(bitgo, backup, user, BITGO, BACKUP);
    LookupP2P(bitgo, backup, user, BACKUP, USER);
    LookupP2P(bitgo, backup, user, USER, BACKUP);
    LookupP2P(bitgo, backup, user, BACKUP, BITGO);
    LookupP2P(bitgo, backup, user, USER, BITGO);
    FindP2PInBatch(Backup, backup, BACKUP, USER);
    FindP2PInBatch(Backup, backup, BACKUP, BITGO);
    FindP2PInBatch(Backup, backup, USER, BITGO);
    FindP2PInBatch(User, user, USER, BACKUP);
    FindP2PInBatch(User, user, USER, BITGO);
    FindP2PInBatch(User, user, BACKUP, BITGO);
    NoneToSelf(Backup, backup);
    NoneToSelf(User, user);
  }

  /** A party's batch has no message from anyone else. */
  lemma NoneToSelf(source: Source, m: Mail)
    requires AddressedBy(PartyOf(source), m)
    ensures FindBetween(m.p2ps, PartyOf(source.Other()), PartyOf(source)) == None
  {
    if m.p2ps != [] {
      FindBetweenInTwo(m.p2ps, PartyOf(source.Other()), PartyOf(source));
    }
  }

  // ----- One round of two AWMs is one round of the network -----

  /** What an AWM call answered, in terms of the party inside: the mail that left it. */
  ghost predicate Sent(env: Env, call: AwmCall, source: Source, round: int, l: Local, sent: Mail) {
    && call.RoundCall? && call.answer.Ok?
    && Holds(env, call.answer.value.blob, l, source, round)
    && AddressedBy(PartyOf(source), sent)
    && call.answer.value.broadcastMessage == First(sent.broadcasts)
    && call.answer.value.p2pMessages == SplitP2Ps(sent.p2ps)
  }

  lemma CallRefines(env: Env, blob: Blob, l: Local, source: Source, input: RoundInput, coins: Coins)
    requires Lawful(env) && Holds(env, blob, l, source, input.round)
    requires WellFormed(input) && input.source == source && input.round > 1
    requires input.bitgoGpgPub == None && input.counterPartyGpgPub == None
    ensures var call := CallRound(Server(env), blob, input, coins);
            var step := Hear(env, l, IncomingMail(input), coins.seed);
            && (call.answer.Ok? <==> coins.delivered && step.Some?)
            && (call.answer.Ok? ==> Sent(env, call, source, input.round + 1, step.value.0, step.value.1))
  {
    RoundRefines(env, blob, l, source, input, coins.seed);
  }

  /** The messages for BitGo and for the counterparty are found in the batch that left. */
  lemma SentP2Ps(env: Env, call: AwmCall, source: Source, round: int, l: Local, sent: Mail)
    requires Sent(env, call, source, round, l, sent)
    ensures HasP2Ps(call) <==> PartFor(sent, true).Some? && PartFor(sent, false).Some?
    ensures HasP2Ps(call) ==>
              BitgoP2POf(call) == PartFor(sent, true).value && CounterP2POf(call) == PartFor(sent, false).value
  {
  }

  /** The pool holds p2p messages for all six addresses. */
  predicate P2PsSent(n: Option<Net>) {
    n.Some? && HeardP2Ps(n.value.pool).Some? && P2PInboxes(n.value.pool).Some?
  }

  /** What the pool and the parties are once both AWMs answered a round with p2p messages. */
  ghost predicate P2PsSeen(u: Env, b: Env, n: Net, uc: AwmCall, bc: AwmCall, round: int,
                           bitgoToUser: P2P, bitgoToBackup: P2P)
  {
    && HasP2Ps(uc) && HasP2Ps(bc)
    && Holds(u, uc.answer.value.blob, n.user, User, round)
    && Holds(b, bc.answer.value.blob, n.backup, Backup, round)
    && HeardP2Ps(n.pool) == Some(Heard(BitgoP2POf(uc), BitgoP2POf(bc)))
    && P2PInboxes(n.pool) == Some(Inboxes(Mail([], [bitgoToUser, CounterP2POf(bc)]),
                                          Mail([], [bitgoToBackup, CounterP2POf(uc)])))
  }

  /** Once both batches are in the pool, their addresses lead back to the two answers. */
  lemma P2PPool(u: Env, b: Env, uc: AwmCall, bc: AwmCall, round: int, user: Local, backup: Local, userOut: Mail,
                backupOut: Mail, toUser: SdkP2P, toBackup: SdkP2P, commitment: Option<string>)
    requires Sent(u, uc, User, round, user, userOut) && Sent(b, bc, Backup, round, backup, backupOut)
    requires FromBitgo(toUser, toBackup)
    ensures var n := Net(user, backup, Pool(BitgoP2Ps(toUser, toBackup, commitment), backupOut, userOut));
            && (HasP2Ps(uc) && HasP2Ps(bc) <==> P2PsSent(Some(n)))
            && (HasP2Ps(uc) && HasP2Ps(bc) ==>
                  P2PsSeen(u, b, n, uc, bc, round, FormatP2P(toUser, commitment), FormatP2P(toBackup, commitment)))
  {
    hide Holds, AddressedBy, Pool, FindBetween, OpenBlob, BitgoP2Ps, PartFor, SplitP2Ps;
    SentP2Ps(u, uc, User, round, user, userOut);
    SentP2Ps(b, bc, Backup, round, backup, backupOut);
    LookupP2Ps(toUser, toBackup, commitment, backupOut, userOut);
  }

  /** A round-2, round-3 or round-4 request as the callbacks build it. */
  predicate FollowUp(input: RoundInput, source: Source) {
    WellFormed(input) && input.source == source && input.round > 1
    && input.bitgoGpgPub == None && input.counterPartyGpgPub == None
  }

  /** A round that answers with p2p messages, seen from the pool. */
  lemma P2PRound(u: Env, b: Env, n: Net, uBlob: Blob, bBlob: Blob, uIn: RoundInput, bIn: RoundInput,
                 uCoins: Coins, bCoins: Coins, toUser: SdkP2P, toBackup: SdkP2P, commitment: Option<string>)
    requires Lawful(u) && Lawful(b)
    requires Holds(u, uBlob, n.user, User, uIn.round) && Holds(b, bBlob, n.backup, Backup, bIn.round)
    requires FollowUp(uIn, User) && FollowUp(bIn, Backup) && uIn.round == bIn.round
    requires FromBitgo(toUser, toBackup)
    ensures var uc, bc := CallRound(Server(u), uBlob, uIn, uCoins), CallRound(Server(b), bBlob, bIn, bCoins);
            var n' := IdealRound(u, b, n, Inboxes(IncomingMail(uIn), IncomingMail(bIn)),
                                 BitgoP2Ps(toUser, toBackup, commitment), uCoins.seed, bCoins.seed);
            && (HasP2Ps(uc) && HasP2Ps(bc) <==> uCoins.delivered && bCoins.delivered && P2PsSent(n'))
            && (HasP2Ps(uc) && HasP2Ps(bc) ==>
                  P2PsSeen(u, b, n'.value, uc, bc, uIn.round + 1,
                           FormatP2P(toUser, commitment), FormatP2P(toBackup, commitment)))
  {
    hide Holds, P2PsSeen, Hear, Round, IncomingMail, HeardP2Ps, P2PInboxes;
    CallRefines(u, uBlob, n.user, User, uIn, uCoins);
    CallRefines(b, bBlob, n.backup, Backup, bIn, bCoins);
    var uc, bc := CallRound(Server(u), uBlob, uIn, uCoins), CallRound(Server(b), bBlob, bIn, bCoins);
    if uc.answer.Ok? && bc.answer.Ok? {
      var (ul, userOut) := Hear(u, n.user, IncomingMail(uIn), uCoins.seed).value;
      var (bl, backupOut) := Hear(b, n.backup, IncomingMail(bIn), bCoins.seed).value;
      P2PPool(u, b, uc, bc, uIn.round + 1, ul, bl, userOut, backupOut, toUser, toBackup, commitment);
    }
  }

  /** What the pool shows when an AWM's broadcast was awaited from both. */
  ghost predicate BroadcastsSeen(pool: Mail, bitgo: Broadcast, user: Broadcast, backup: Broadcast) {
    && HeardBroadcasts(pool) == Some(Heard(user, backup))
    && BroadcastInboxes(pool) == Some(Inboxes(Mail([bitgo, backup], []), Mail([bitgo, user], [])))
  }

  /** A round that answers with broadcasts, seen from the pool. */
  lemma BroadcastRound(u: Env, b: Env, n: Net, uBlob: Blob, bBlob: Blob, uIn: RoundInput, bIn: RoundInput,
                       uCoins: Coins, bCoins: Coins, bitgo: SdkBroadcast)
    requires Lawful(u) && Lawful(b)
    requires Holds(u, uBlob, n.user, User, uIn.round) && Holds(b, bBlob, n.backup, Backup, bIn.round)
    requires FollowUp(uIn, User) && FollowUp(bIn, Backup)
    requires bitgo.from == BITGO
    ensures var uc, bc := CallRound(Server(u), uBlob, uIn, uCoins), CallRound(Server(b), bBlob, bIn, bCoins);
            var n' := IdealRound(u, b, n, Inboxes(IncomingMail(uIn), IncomingMail(bIn)),
                                 BitgoBroadcast(bitgo), uCoins.seed, bCoins.seed);
            && (HasBroadcast(uc) && HasBroadcast(bc) <==>
                  && uCoins.delivered && bCoins.delivered
                  && n'.Some? && HeardBroadcasts(n'.value.pool).Some? && BroadcastInboxes(n'.value.pool).Some?)
            && (HasBroadcast(uc) && HasBroadcast(bc) ==>
                  && Holds(u, uc.answer.value.blob, n'.value.user, User, uIn.round + 1)
                  && Holds(b, bc.answer.value.blob, n'.value.backup, Backup, bIn.round + 1)
                  && BroadcastsSeen(n'.value.pool, FormatBroadcast(bitgo), BroadcastOf(uc), BroadcastOf(bc)))
  {
    CallRefines(u, uBlob, n.user, User, uIn, uCoins);
    CallRefines(b, bBlob, n.backup, Backup, bIn, bCoins);
    var uc, bc := CallRound(Server(u), uBlob, uIn, uCoins), CallRound(Server(b), bBlob, bIn, bCoins);
    if uc.answer.Ok? && bc.answer.Ok? {
      var (_, userOut) := Hear(u, n.user, IncomingMail(uIn), uCoins.seed).value;
      var (_, backupOut) := Hear(b, n.backup, IncomingMail(bIn), bCoins.seed).value;
      LookupBroadcasts(FormatBroadcast(bitgo), backupOut, userOut);
    }
  }

  /** Each AWM's key provider unwraps the data key it wrapped. */
  ghost predicate KeysWrapped(u: Env, b: Env, c: Chance) {
    && u.unwrapKey(c.userKeys.wrappedKey) == Some(c.userKeys.dataKey)
    && b.unwrapKey(c.backupKeys.wrappedKey) == Some(c.backupKeys.dataKey)
  }

  /** The first round, seen from the pool. */
  lemma StartRound(u: Env, b: Env, g: Bitgo, c: Chance)
    requires Lawful(u) && Lawful(b) && KeysWrapped(u, b, c)
    requires g.round1.from == BITGO
    ensures var o := InitializeStep(Server(u), Server(b), FRESH, InitializeArgs(g, c));
            var n := Ideal1(u, b, g, c);
            && (o.result.Ok? <==>
                  && c.userInit && c.backupInit && c.user1.delivered && c.backup1.delivered
                  && n.Some? && HeardBroadcasts(n.value.pool).Some? && BroadcastInboxes(n.value.pool).Some?)
            && (o.result.Ok? ==>
                  && Holds(u, o.result.value.userState, n.value.user, User, 2)
                  && Holds(b, o.result.value.backupState, n.value.backup, Backup, 2)
                  && o.closure.userRound1 == Some(o.result.value.userBroadcast)
                  && o.closure.backupRound1 == Some(o.result.value.backupBroadcast)
                  && o.result.value.userGpgPublicKey == c.userKeys.gpgPub
                  && o.result.value.backupGpgPublicKey == c.backupKeys.gpgPub
                  && BroadcastsSeen(n.value.pool, FormatBroadcast(g.round1),
                                    o.result.value.userBroadcast, o.result.value.backupBroadcast))
  {
    hide Start, Round, Holds;
    StartRefines(u, User, c.userKeys, g.gpgKey, c.backupKeys.gpgPub, c.user1.seed);
    StartRefines(b, Backup, c.backupKeys, g.gpgKey, c.userKeys.gpgPub, c.backup1.seed);
    var us := Start(u, User, c.userKeys.gpgPrv, g.gpgKey, c.backupKeys.gpgPub, c.user1.seed);
    var bs := Start(b, Backup, c.backupKeys.gpgPrv, g.gpgKey, c.userKeys.gpgPub, c.backup1.seed);
    if us.Some? && bs.Some? {
      LookupBroadcasts(FormatBroadcast(g.round1), bs.value.1, us.value.1);
    }
  }

  // ----- The four callbacks, from the last to the first -----

  predicate FineEnd(c: Chance, t: Transcript) { UndisturbedEnd(c) && t.keychain != "" }
  predicate Fine3(g: Bitgo, c: Chance, t: Transcript) { Undisturbed3(c) && Addressed4(g, t) && FineEnd(c, t) }
  predicate Fine2(g: Bitgo, c: Chance, t: Transcript) { Undisturbed2(c) && Addressed3(g, t) && Fine3(g, c, t) }

  /** The variables and states after the round-3 callback are the network after round 4. */
  ghost predicate AfterRound4(u: Env, b: Env, k: Closure, n: Net, bitgo: SdkBroadcast, r3: Round3Output) {
    && Holds(u, r3.userState, n.user, User, 5) && Holds(b, r3.backupState, n.backup, Backup, 5)
    && k.userRound4 == Some(r3.userBroadcast) && k.backupRound4 == Some(r3.backupBroadcast)
    && BroadcastsSeen(n.pool, FormatBroadcast(bitgo), r3.userBroadcast, r3.backupBroadcast)
  }

  /** The finalize callback is the end of the ideal protocol. */
  lemma EndSimulated(u: Env, b: Env, g: Bitgo, c: Chance, k: Closure, n: Net, h1: Opening, h2: Heard<P2P>,
                     r3: Round3Output, in2: Inboxes, in3: Inboxes, in4: Inboxes)
    requires Lawful(u) && Lawful(b)
    requires g.round4(h1, h2, Heard(r3.userP2p, r3.backupP2p)).from == BITGO
    requires AfterRound4(u, b, k, n, g.round4(h1, h2, Heard(r3.userP2p, r3.backupP2p)), r3)
    ensures var ideal := IdealEnd(u, b, g, c, n, h1, h2, Heard(r3.userP2p, r3.backupP2p), in2, in3, in4);
            RealEnd(u, b, g, c, k, h1, h2, r3, in2, in3, in4) ==
              if ideal.Some? && FineEnd(c, ideal.value) then ideal else None
  {
    hide KeyToStore, Finish, Holds, Lawful;
    var i := FinalizeArgs(g, c, h1, h2, r3);
    var uReq, bReq := FinalizeRequest(User, i, r3.backupBroadcast), FinalizeRequest(Backup, i, r3.userBroadcast);
    FinalizeRefines(u, r3.userState, n.user, User, 5, uReq, c.userEnd.seed);
    FinalizeRefines(b, r3.backupState, n.backup, Backup, 5, bReq, c.backupEnd.seed);
    assert uReq.broadcastMessages.Values() == [FormatBroadcast(i.bitgoMsg4), r3.backupBroadcast];
    assert bReq.broadcastMessages.Values() == [FormatBroadcast(i.bitgoMsg4), r3.userBroadcast];
  }

  /** The variables and states after the fused callback are the network after round 3. */
  ghost predicate AfterRound3(u: Env, b: Env, g: Bitgo, k: Closure, n: Net, h1: Opening, r2: Round2Output) {
    var bitgo := g.round3(h1, Heard(r2.userP2p, r2.backupP2p));
    && Holds(u, r2.userState, n.user, User, 4) && Holds(b, r2.backupState, n.backup, Backup, 4)
    && k.userRound3Bitgo.Some? && k.backupRound3Bitgo.Some?
    && k.userRound3Counter.Some? && k.backupRound3Counter.Some?
    && HeardP2Ps(n.pool) == Some(Heard(k.userRound3Bitgo.value, k.backupRound3Bitgo.value))
    && P2PInboxes(n.pool) ==
         Some(Inboxes(Mail([], [FormatP2P(bitgo.toUser, bitgo.commitment), k.backupRound3Counter.value]),
                      Mail([], [FormatP2P(bitgo.toBackup, bitgo.commitment), k.userRound3Counter.value])))
  }

  /** The round-3 callback itself is the network's round 4. */
  lemma Round3StepSimulated(u: Env, b: Env, g: Bitgo, c: Chance, k: Closure, n: Net, h1: Opening,
                            r2: Round2Output, bitgo4: SdkBroadcast)
    requires Lawful(u) && Lawful(b)
    requires AfterRound3(u, b, g, k, n, h1, r2)
    requires var bitgo := g.round3(h1, Heard(r2.userP2p, r2.backupP2p)); FromBitgo(bitgo.toUser, bitgo.toBackup)
    requires bitgo4.from == BITGO
    ensures var o := Round3Step(Server(u), Server(b), k, Round3Args(g, c, h1, r2));
            var in4 := P2PInboxes(n.pool).value;
            var n4 := IdealRound(u, b, n, in4, BitgoBroadcast(bitgo4), c.user4.seed, c.backup4.seed);
            && (o.result.Ok? <==> Undisturbed3(c) && n4.Some? &&
                                  HeardBroadcasts(n4.value.pool).Some? && BroadcastInboxes(n4.value.pool).Some?)
            && (o.result.Ok? ==>
                  && |o.calls| == 2 && Boxes(o.calls[0], o.calls[1]) == in4
                  && AfterRound4(u, b, o.closure, n4.value, bitgo4, o.result.value)
                  && o.result.value.userP2p == k.userRound3Bitgo.value
                  && o.result.value.backupP2p == k.backupRound3Bitgo.value)
  {
    var i := Round3Args(g, c, h1, r2);
    var uIn := P2PInput(User, 4, FormatP2P(i.bitgoToUserMsg3, i.bitgoCommitment2), k.backupRound3Counter.value);
    var bIn := P2PInput(Backup, 4, FormatP2P(i.bitgoToBackupMsg3, i.bitgoCommitment2), k.userRound3Counter.value);
    P2PMail(User, 4, FormatP2P(i.bitgoToUserMsg3, i.bitgoCommitment2), k.backupRound3Counter.value);
    P2PMail(Backup, 4, FormatP2P(i.bitgoToBackupMsg3, i.bitgoCommitment2), k.userRound3Counter.value);
    BroadcastRound(u, b, n, r2.userState, r2.backupState, uIn, bIn, c.user4, c.backup4, bitgo4);
  }

  /** The round-3 callback, with its held-back messages, and finalize are round 4 and the end. */
  lemma Round3Simulated(u: Env, b: Env, g: Bitgo, c: Chance, k: Closure, n: Net, h1: Opening,
                        r2: Round2Output, in2: Inboxes, in3: Inboxes)
    requires Lawful(u) && Lawful(b)
    requires AfterRound3(u, b, g, k, n, h1, r2)
    requires var bitgo := g.round3(h1, Heard(r2.userP2p, r2.backupP2p)); FromBitgo(bitgo.toUser, bitgo.toBackup)
    ensures var ideal := Ideal4(u, b, g, c, n, h1, Heard(r2.userP2p, r2.backupP2p), in2, in3);
            Real3(u, b, g, c, k, h1, r2, in2, in3) ==
              if ideal.Some? && Fine3(g, c, ideal.value) then ideal else None
  {
    hide Round3Step, IdealRound, Holds, FinalizeStep, BroadcastsSeen;
    var h2, h3 := Heard(r2.userP2p, r2.backupP2p), Heard(k.userRound3Bitgo.value, k.backupRound3Bitgo.value);
    var bitgo4 := g.round4(h1, h2, h3);
    var o := Round3Step(Server(u), Server(b), k, Round3Args(g, c, h1, r2));
    if bitgo4.from == BITGO {
      Round3StepSimulated(u, b, g, c, k, n, h1, r2, bitgo4);
      if o.result.Ok? {
        var in4 := P2PInboxes(n.pool).value;
        var n4 := IdealRound(u, b, n, in4, BitgoBroadcast(bitgo4), c.user4.seed, c.backup4.seed).value;
        EndSimulated(u, b, g, c, o.closure, n4, h1, h2, o.result.value, in2, in3, in4);
      }
    } else {
      NotFromBitgo(u, b, g, c, k, h1, r2, in2, in3);
    }
  }

  lemma P2PMail(source: Source, round: int, bitgo: P2P, counterParty: P2P)
    requires 2 <= round <= 4
    ensures FollowUp(P2PInput(source, round, bitgo, counterParty), source)
    ensures IncomingMail(P2PInput(source, round, bitgo, counterParty)) == Mail([], [bitgo, counterParty])
  {
  }

  lemma BroadcastMail(source: Source, round: int, bitgo: Broadcast, counterParty: Broadcast)
    requires 2 <= round <= 4
    ensures FollowUp(BroadcastInput(source, round, bitgo, counterParty), source)
    ensures IncomingMail(BroadcastInput(source, round, bitgo, counterParty)) == Mail([bitgo, counterParty], [])
  {
  }

  /** A last broadcast that is not BitGo's stops the finalize callback. */
  lemma NotFromBitgo(u: Env, b: Env, g: Bitgo, c: Chance, k: Closure, h1: Opening, r2: Round2Output,
                     in2: Inboxes, in3: Inboxes)
    requires k.userRound3Bitgo.Some? && k.backupRound3Bitgo.Some?
    requires g.round4(h1, Heard(r2.userP2p, r2.backupP2p),
                      Heard(k.userRound3Bitgo.value, k.backupRound3Bitgo.value)).from != BITGO
    ensures Real3(u, b, g, c, k, h1, r2, in2, in3) == None
  {
  }

  /** The variables and states after the initialize callback are the network after round 1. */
  ghost predicate AfterRound1(u: Env, b: Env, g: Bitgo, c: Chance, k: Closure, n: Net, r1: InitializeOutput) {
    && Holds(u, r1.userState, n.user, User, 2) && Holds(b, r1.backupState, n.backup, Backup, 2)
    && k.userRound1 == Some(r1.userBroadcast) && k.backupRound1 == Some(r1.backupBroadcast)
    && r1.userGpgPublicKey == c.userKeys.gpgPub && r1.backupGpgPublicKey == c.backupKeys.gpgPub
    && BroadcastsSeen(n.pool, FormatBroadcast(g.round1), r1.userBroadcast, r1.backupBroadcast)
  }

  // The four AWM calls of the fused callback, and the two in its middle seen as answered.
  function U2(u: Env, g: Bitgo, c: Chance, r1: InitializeOutput): AwmCall {
    CallRound(Server(u), r1.userState, BroadcastInput(User, 2, FormatBroadcast(g.round1), r1.backupBroadcast), c.user2)
  }

  function B2(b: Env, g: Bitgo, c: Chance, r1: InitializeOutput): AwmCall {
    CallRound(Server(b), r1.backupState,
              BroadcastInput(Backup, 2, FormatBroadcast(g.round1), r1.userBroadcast), c.backup2)
  }

  function U3(u: Env, c: Chance, toUser: P2P, u2: AwmCall, b2: AwmCall): AwmCall
    requires HasP2Ps(u2) && HasP2Ps(b2)
  {
    CallRound(Server(u), u2.answer.value.blob, P2PInput(User, 3, toUser, CounterP2POf(b2)), c.user3)
  }

  function B3(b: Env, c: Chance, toBackup: P2P, u2: AwmCall, b2: AwmCall): AwmCall
    requires HasP2Ps(u2) && HasP2Ps(b2)
  {
    CallRound(Server(b), b2.answer.value.blob, P2PInput(Backup, 3, toBackup, CounterP2POf(u2)), c.backup3)
  }

  /** The variables after a fused callback that got these round-3 answers. */
  function WithRound3(k: Closure, u3: AwmCall, b3: AwmCall): Closure
    requires HasP2Ps(u3) && HasP2Ps(b3)
  {
    k.(userRound3Bitgo := Some(BitgoP2POf(u3)), backupRound3Bitgo := Some(BitgoP2POf(b3)),
       userRound3Counter := Some(CounterP2POf(u3)), backupRound3Counter := Some(CounterP2POf(b3)))
  }

  /** BitGo's round-2 messages after round 1. */
  function BitgoRound2(g: Bitgo, r1: InitializeOutput): (SdkP2P, SdkP2P) {
    g.round2(OpeningOf(r1))
  }

  /** The fused callback in terms of its four calls. */
  lemma Real2Unfolded(u: Env, b: Env, g: Bitgo, c: Chance, k: Closure, r1: InitializeOutput)
    requires k.userRound1 == Some(r1.userBroadcast) && k.backupRound1 == Some(r1.backupBroadcast)
    requires g.round1.from == BITGO && FromBitgo(BitgoRound2(g, r1).0, BitgoRound2(g, r1).1)
    ensures var u2, b2 := U2(u, g, c, r1), B2(b, g, c, r1);
            Real2(u, b, g, c, k, r1) ==
              if HasP2Ps(u2) && HasP2Ps(b2) then
                var u3 := U3(u, c, FormatP2P(BitgoRound2(g, r1).0, None), u2, b2);
                var b3 := B3(b, c, FormatP2P(BitgoRound2(g, r1).1, None), u2, b2);
                if HasP2Ps(u3) && HasP2Ps(b3) then
                  Real3(u, b, g, c, WithRound3(k, u3, b3), OpeningOf(r1),
                        Round2Output(BitgoP2POf(u2), BitgoP2POf(b2), u3.answer.value.blob, b3.answer.value.blob),
                        Boxes(u2, b2), Boxes(u3, b3))
                else None
              else None
  {
    hide Real3, Server;
  }

  /** The first half of the fused callback is the network's round 2. */
  lemma Round2Half(u: Env, b: Env, g: Bitgo, c: Chance, k: Closure, n: Net, r1: InitializeOutput)
    requires Lawful(u) && Lawful(b) && AfterRound1(u, b, g, c, k, n, r1)
    requires FromBitgo(BitgoRound2(g, r1).0, BitgoRound2(g, r1).1)
    ensures var bitgo := BitgoRound2(g, r1);
            var u2, b2 := U2(u, g, c, r1), B2(b, g, c, r1);
            var in2 := BroadcastInboxes(n.pool).value;
            var n2 := IdealRound(u, b, n, in2, BitgoP2Ps(bitgo.0, bitgo.1, None), c.user2.seed, c.backup2.seed);
            && Boxes(u2, b2) == in2
            && (HasP2Ps(u2) && HasP2Ps(b2) <==> c.user2.delivered && c.backup2.delivered && P2PsSent(n2))
            && (HasP2Ps(u2) && HasP2Ps(b2) ==>
                  P2PsSeen(u, b, n2.value, u2, b2, 3, FormatP2P(bitgo.0, None), FormatP2P(bitgo.1, None)))
  {
    var bitgo := BitgoRound2(g, r1);
    BroadcastMail(User, 2, FormatBroadcast(g.round1), r1.backupBroadcast);
    BroadcastMail(Backup, 2, FormatBroadcast(g.round1), r1.userBroadcast);
    P2PRound(u, b, n, r1.userState, r1.backupState,
             BroadcastInput(User, 2, FormatBroadcast(g.round1), r1.backupBroadcast),
             BroadcastInput(Backup, 2, FormatBroadcast(g.round1), r1.userBroadcast),
             c.user2, c.backup2, bitgo.0, bitgo.1, None);
  }

  /** The second half is the network's round 3, whatever addressed messages BitGo sends meanwhile. */
  lemma Round3Half(u: Env, b: Env, c: Chance, n2: Net, u2: AwmCall, b2: AwmCall, toUser2: P2P, toBackup2: P2P,
                   toUser3: SdkP2P, toBackup3: SdkP2P, commitment: Option<string>)
    requires Lawful(u) && Lawful(b)
    requires P2PsSeen(u, b, n2, u2, b2, 3, toUser2, toBackup2)
    requires FromBitgo(toUser3, toBackup3)
    ensures var u3, b3 := U3(u, c, toUser2, u2, b2), B3(b, c, toBackup2, u2, b2);
            var in3 := P2PInboxes(n2.pool).value;
            var n3 := IdealRound(u, b, n2, in3, BitgoP2Ps(toUser3, toBackup3, commitment),
                                 c.user3.seed, c.backup3.seed);
            && Boxes(u3, b3) == in3
            && (HasP2Ps(u3) && HasP2Ps(b3) <==> c.user3.delivered && c.backup3.delivered && P2PsSent(n3))
            && (HasP2Ps(u3) && HasP2Ps(b3) ==>
                  P2PsSeen(u, b, n3.value, u3, b3, 4, FormatP2P(toUser3, commitment), FormatP2P(toBackup3, commitment)))
  {
    P2PMail(User, 3, toUser2, CounterP2POf(b2));
    P2PMail(Backup, 3, toBackup2, CounterP2POf(u2));
    P2PRound(u, b, n2, u2.answer.value.blob, b2.answer.value.blob,
             P2PInput(User, 3, toUser2, CounterP2POf(b2)), P2PInput(Backup, 3, toBackup2, CounterP2POf(u2)),
             c.user3, c.backup3, toUser3, toBackup3, commitment);
  }

  /** Round-3 messages that are not addressed stop the round-3 callback. */
  lemma NotAddressed(u: Env, b: Env, g: Bitgo, c: Chance, k: Closure, h1: Opening, r2: Round2Output,
                     in2: Inboxes, in3: Inboxes)
    requires var bitgo := g.round3(h1, Heard(r2.userP2p, r2.backupP2p)); !FromBitgo(bitgo.toUser, bitgo.toBackup)
    ensures Real3(u, b, g, c, k, h1, r2, in2, in3) == None
  {
  }

  /** From the middle of the fused callback on: round 3, round 4 and the end. */
  lemma Round3Onwards(u: Env, b: Env, g: Bitgo, c: Chance, k: Closure, n2: Net, h1: Opening,
                      u2: AwmCall, b2: AwmCall, toUser2: P2P, toBackup2: P2P, in2: Inboxes)
    requires Lawful(u) && Lawful(b)
    requires P2PsSeen(u, b, n2, u2, b2, 3, toUser2, toBackup2)
    ensures var ideal := Ideal3(u, b, g, c, n2, h1, in2);
            var u3, b3 := U3(u, c, toUser2, u2, b2), B3(b, c, toBackup2, u2, b2);
            (if HasP2Ps(u3) && HasP2Ps(b3) then
               Real3(u, b, g, c, WithRound3(k, u3, b3), h1,
                     Round2Output(BitgoP2POf(u2), BitgoP2POf(b2), u3.answer.value.blob, b3.answer.value.blob),
                     in2, Boxes(u3, b3))
             else None) ==
            if && ideal.Some? && c.user3.delivered && c.backup3.delivered
               && Addressed3(g, ideal.value) && Fine3(g, c, ideal.value)
            then ideal else None
  {
    hide Holds, Real3, IdealEnd, U3, B3, Boxes, IdealRound, BitgoP2Ps;
    var h2 := Heard(BitgoP2POf(u2), BitgoP2POf(b2));
    var bitgo := g.round3(h1, h2);
    var u3, b3 := U3(u, c, toUser2, u2, b2), B3(b, c, toBackup2, u2, b2);
    IdealHeard(u, b, g, c, n2, h1, in2);
    if FromBitgo(bitgo.toUser, bitgo.toBackup) {
      Round3Half(u, b, c, n2, u2, b2, toUser2, toBackup2, bitgo.toUser, bitgo.toBackup, bitgo.commitment);
      if HasP2Ps(u3) && HasP2Ps(b3) {
        var n3 := IdealRound(u, b, n2, P2PInboxes(n2.pool).value,
                             BitgoP2Ps(bitgo.toUser, bitgo.toBackup, bitgo.commitment),
                             c.user3.seed, c.backup3.seed).value;
        Round3Simulated(u, b, g, c, WithRound3(k, u3, b3), n3, h1,
                        Round2Output(BitgoP2POf(u2), BitgoP2POf(b2), u3.answer.value.blob, b3.answer.value.blob),
                        in2, Boxes(u3, b3));
      }
    } else {
      if HasP2Ps(u3) && HasP2Ps(b3) {
        NotAddressed(u, b, g, c, WithRound3(k, u3, b3), h1,
                     Round2Output(BitgoP2POf(u2), BitgoP2POf(b2), u3.answer.value.blob, b3.answer.value.blob),
                     in2, Boxes(u3, b3));
      }
    }
  }

  /** A transcript records what BitGo heard. */
  lemma IdealHeard(u: Env, b: Env, g: Bitgo, c: Chance, n2: Net, h1: Opening, in2: Inboxes)
    ensures var ideal := Ideal3(u, b, g, c, n2, h1, in2);
            ideal.Some? ==> ideal.value.heard1 == h1 && Some(ideal.value.heard2) == HeardP2Ps(n2.pool)
  {
    hide IdealRound, HeardP2Ps, P2PInboxes, HeardBroadcasts, BroadcastInboxes, Finish, BitgoP2Ps;
  }

  /** The fused round-2 callback, and all that follows, are rounds 2 to 4 and the end. */
  lemma Round2Simulated(u: Env, b: Env, g: Bitgo, c: Chance, k: Closure, n: Net, r1: InitializeOutput)
    requires Lawful(u) && Lawful(b) && AfterRound1(u, b, g, c, k, n, r1) && g.round1.from == BITGO
    requires FromBitgo(BitgoRound2(g, r1).0, BitgoRound2(g, r1).1)
    ensures var ideal := Ideal2(u, b, g, c, n);
            Real2(u, b, g, c, k, r1) == if ideal.Some? && Fine2(g, c, ideal.value) then ideal else None
  {
    hide Holds, Real2, Real3, Ideal4, U2, B2, U3, B3, Boxes, IdealRound, BitgoP2Ps, WithRound3;
    var h1 := OpeningOf(r1);
    var bitgo := BitgoRound2(g, r1);
    var u2, b2 := U2(u, g, c, r1), B2(b, g, c, r1);
    Real2Unfolded(u, b, g, c, k, r1);
    Round2Half(u, b, g, c, k, n, r1);
    if HasP2Ps(u2) && HasP2Ps(b2) {
      var in2 := BroadcastInboxes(n.pool).value;
      var n2 := IdealRound(u, b, n, in2, BitgoP2Ps(bitgo.0, bitgo.1, None), c.user2.seed, c.backup2.seed).value;
      Round3Onwards(u, b, g, c, k, n2, h1, u2, b2, FormatP2P(bitgo.0, None), FormatP2P(bitgo.1, None), in2);
    }
  }

  /** A transcript records what BitGo heard in the first round. */
  lemma IdealHeardFirst(u: Env, b: Env, g: Bitgo, c: Chance, n1: Net)
    ensures var ideal := Ideal2(u, b, g, c, n1);
            var heard := HeardBroadcasts(n1.pool);
            ideal.Some? ==> heard.Some? && ideal.value.heard1 == IdealOpening(c, heard.value)
  {
    hide Ideal3, HeardBroadcasts, BroadcastInboxes, IdealRound;
    var heard, in2 := HeardBroadcasts(n1.pool), BroadcastInboxes(n1.pool);
    if heard.Some? && in2.Some? {
      var h1 := IdealOpening(c, heard.value);
      var bitgo := g.round2(h1);
      var n2 := IdealRound(u, b, n1, in2.value, BitgoP2Ps(bitgo.0, bitgo.1, None), c.user2.seed, c.backup2.seed);
      if n2.Some? {
        IdealHeard(u, b, g, c, n2.value, h1, in2.value);
      }
    }
  }

  /** Messages that are not BitGo's, or not addressed, stop the fused callback. */
  lemma Round2Refused(u: Env, b: Env, g: Bitgo, c: Chance, k: Closure, r1: InitializeOutput)
    requires g.round1.from != BITGO || !FromBitgo(BitgoRound2(g, r1).0, BitgoRound2(g, r1).1)
    ensures Real2(u, b, g, c, k, r1) == None
  {
  }

  /**
    Simulation. For every BitGo and every chance, the run of the four callbacks over two
    stateless AWMs ends with a transcript exactly when the ideal synchronous three-party
    protocol does with the same transcript, no call was disturbed, BitGo labelled its
    messages, and the keychain is not empty. So every inbox of each AWM, everything BitGo
    hears, GPG keys included, the keychain and both stored keys are those of the ideal protocol, though
    rounds 2 and 3 share a callback and round-3 messages reach BitGo only with round 4.
   */
  lemma Simulation(u: Env, b: Env, g: Bitgo, c: Chance, t: Transcript)
    requires Lawful(u) && Lawful(b) && KeysWrapped(u, b, c)
    ensures Real(u, b, g, c) == Some(t) <==>
              Ideal(u, b, g, c) == Some(t) && Undisturbed(c) && Addressed(g, t) && t.keychain != ""
  {
    hide Holds, Real2, Ideal2, Ideal1, InitializeStep, InitializeArgs;
    var o := InitializeStep(Server(u), Server(b), FRESH, InitializeArgs(g, c));
    if g.round1.from == BITGO {
      StartRound(u, b, g, c);
      if o.result.Ok? {
        var n1 := Ideal1(u, b, g, c).value;
        var r1 := o.result.value;
        IdealHeardFirst(u, b, g, c, n1);
        if FromBitgo(BitgoRound2(g, r1).0, BitgoRound2(g, r1).1) {
          Round2Simulated(u, b, g, c, o.closure, n1, r1);
        } else {
          Round2Refused(u, b, g, c, o.closure, r1);
        }
      } else if Undisturbed1(c) {
        IdealStuck(u, b, g, c);
      }
    } else if o.result.Ok? {
      Round2Refused(u, b, g, c, o.closure, o.result.value);
    }
  }

  /** Without the broadcasts of round 1 in the pool, the ideal protocol stops. */
  lemma IdealStuck(u: Env, b: Env, g: Bitgo, c: Chance)
    requires var n := Ideal1(u, b, g, c);
             !(n.Some? && HeardBroadcasts(n.value.pool).Some? && BroadcastInboxes(n.value.pool).Some?)
    ensures Ideal(u, b, g, c) == None
  {
    hide Ideal1, HeardBroadcasts, BroadcastInboxes;
  }
}
