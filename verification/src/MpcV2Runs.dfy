/**
  Arbitrary runs of the four key generation callbacks: any order, with failures and retries,
  and with whatever messages and session states the caller chooses to pass.
 */
module MpcV2Runs {
  import opened Prelude
  import opened MpcV2Awm
  import opened MpcV2Orchestrator

  datatype Callback =
    | InitializeCb(init: InitializeInput)
    | Round2Cb(r2: Round2Input)
    | Round3Cb(r3: Round3Input)
    | FinalizeCb(fin: FinalInput)

  datatype Return =
    | Initialized(init: InitializeOutput)
    | Round2Done(r2: Round2Output)
    | Round3Done(r3: Round3Output)
    | Finalized(commonKeychain: string)

  datatype World = World(closure: Closure, calls: seq<AwmCall>, results: seq<Option<Return>>)

  /** A callback's effect on the world, given how its result reads. */
  function After<T>(w: World, o: Outcome<T>, returned: T -> Return): World {
    World(o.closure, w.calls + o.calls, w.results + [if o.result.Ok? then Some(returned(o.result.value)) else None])
  }

  function Step(user: Awm, backup: Awm, w: World, cb: Callback): World {
    match cb
    case InitializeCb(i) =>
      After(w, InitializeStep(user, backup, w.closure, i), (r: InitializeOutput) => Initialized(r))
    case Round2Cb(i) => After(w, Round2Step(user, backup, w.closure, i), (r: Round2Output) => Round2Done(r))
    case Round3Cb(i) => After(w, Round3Step(user, backup, w.closure, i), (r: Round3Output) => Round3Done(r))
    case FinalizeCb(i) => After(w, FinalizeStep(user, backup, w.closure, i), (r: string) => Finalized(r))
  }

  function Run(user: Awm, backup: Awm, cbs: seq<Callback>): (w: World)
    ensures |w.results| == |cbs|
  {
    if cbs == [] then World(FRESH, [], [])
    else Step(user, backup, Run(user, backup, cbs[..|cbs| - 1]), cbs[|cbs| - 1])
  }

  // ----- What the calls issued so far have answered -----

  /** Some call asked this AWM for this round and got its broadcast `m`. */
  ghost predicate GotBroadcast(calls: seq<AwmCall>, source: Source, round: int, m: Broadcast) {
    exists c :: c in calls && IsRound(c, source, round) && HasBroadcast(c) && BroadcastOf(c) == m
  }

  /** Some call asked this AWM for this round and got `m` for its counterparty. */
  ghost predicate GotCounterP2P(calls: seq<AwmCall>, source: Source, round: int, m: P2P) {
    exists c :: c in calls && IsRound(c, source, round) && HasP2Ps(c) && CounterP2POf(c) == m
  }

  /** Some call asked this AWM for this round and got `m` for BitGo. */
  ghost predicate GotBitgoP2P(calls: seq<AwmCall>, source: Source, round: int, m: P2P) {
    exists c :: c in calls && IsRound(c, source, round) && HasP2Ps(c) && BitgoP2POf(c) == m
  }

  predicate IsRound(c: AwmCall, source: Source, round: int) {
    c.RoundCall? && c.source == source && c.input.round == round
  }

  ghost predicate CompletedBroadcast(calls: seq<AwmCall>, source: Source, round: int) {
    exists m :: GotBroadcast(calls, source, round, m)
  }

  ghost predicate CompletedP2P(calls: seq<AwmCall>, source: Source, round: int) {
    exists m :: GotCounterP2P(calls, source, round, m)
  }

  /** Calls `k` and `k + 1` initialized the two AWMs, one after the other. */
  predicate InitializedAt(calls: seq<AwmCall>, k: nat) {
    && k + 1 < |calls|
    && calls[k].InitCall? && calls[k].source == User && calls[k].init.Ok?
    && calls[k + 1].InitCall? && calls[k + 1].source == Backup && calls[k + 1].init.Ok?
  }

  /** The answer that initialize gave this AWM in that pair. */
  function InitOf(calls: seq<AwmCall>, k: nat, source: Source): InitResponse
    requires InitializedAt(calls, k)
  {
    if source == User then calls[k].init.value else calls[k + 1].init.value
  }

  /**
    The round-1 call starts from what its own AWM answered to one pair of initialize calls,
    and brings it the GPG key that the other AWM answered in the same pair.
   */
  ghost predicate Introduced(calls: seq<AwmCall>, c: AwmCall)
    requires c.RoundCall?
  {
    exists k: nat | InitializedAt(calls, k) ::
      && c.blob == InitOf(calls, k, c.source).blob
      && c.input.counterPartyGpgPub == Some(InitOf(calls, k, c.source.Other()).gpgPub)
  }

  /**
    The call may follow `calls`: both AWMs have finished the round before it, and what it
    carries to its AWM as the counterparty's message, or in round 1 as the counterparty's GPG
    key, is what the other AWM answered in that round.
   */
  ghost predicate Ready(calls: seq<AwmCall>, c: AwmCall) {
    match c
    case InitCall(_, _) => true
    case RoundCall(s, _, input, _) =>
      && input.source == s
      && 1 <= input.round <= 4
      && (input.round == 1 ==> Introduced(calls, c))
      && (input.round == 2 ==>
            && input.broadcastMessages.Some? && input.broadcastMessages.value.counterParty.Some?
            && GotBroadcast(calls, s.Other(), 1, input.broadcastMessages.value.counterParty.value)
            && CompletedBroadcast(calls, s, 1))
      && (input.round > 2 ==>
            && input.p2pMessages.Some? && input.p2pMessages.value.counterParty.Some?
            && GotCounterP2P(calls, s.Other(), input.round - 1, input.p2pMessages.value.counterParty.value)
            && CompletedP2P(calls, s, input.round - 1))
    case FinalizeCall(s, _, final, _) =>
      && final.source == s
      && final.broadcastMessages.counterParty.Some?
      && GotBroadcast(calls, s.Other(), 4, final.broadcastMessages.counterParty.value)
      && CompletedBroadcast(calls, s, 4)
  }

  /** Every call was ready to be issued after the calls before it. */
  ghost predicate InOrder(calls: seq<AwmCall>) {
    calls == [] ||
    (InOrder(calls[..|calls| - 1]) && Ready(calls[..|calls| - 1], calls[|calls| - 1]))
  }

  lemma {:induction false} InOrderAt(calls: seq<AwmCall>, k: nat)
    requires InOrder(calls) && k < |calls|
    ensures Ready(calls[..k], calls[k])
  {
    if k < |calls| - 1 {
      InOrderAt(calls[..|calls| - 1], k);
      assert calls[..|calls| - 1][..k] == calls[..k];
    }
  }

  /** Every key an AWM stored has BitGo's keychain, as the call gave it, for its public part. */
  predicate StoresBitgoKeychain(calls: seq<AwmCall>) {
    forall c | c in calls && c.FinalizeCall? && c.outcome.stored.Some? ::
      c.outcome.stored.value.pub == c.final.bitgoCommonKeychain && c.outcome.stored.value.source == c.source
  }

  /** Each variable holds a message that its AWM answered in its round. */
  ghost predicate Recorded(c: Closure, calls: seq<AwmCall>) {
    && (c.userRound1.Some? ==> GotBroadcast(calls, User, 1, c.userRound1.value))
    && (c.backupRound1.Some? ==> GotBroadcast(calls, Backup, 1, c.backupRound1.value))
    && (c.userRound3Bitgo.Some? ==> GotBitgoP2P(calls, User, 3, c.userRound3Bitgo.value))
    && (c.backupRound3Bitgo.Some? ==> GotBitgoP2P(calls, Backup, 3, c.backupRound3Bitgo.value))
    && (c.userRound3Counter.Some? ==> GotCounterP2P(calls, User, 3, c.userRound3Counter.value))
    && (c.backupRound3Counter.Some? ==> GotCounterP2P(calls, Backup, 3, c.backupRound3Counter.value))
    && (c.userRound4.Some? ==> GotBroadcast(calls, User, 4, c.userRound4.value))
    && (c.backupRound4.Some? ==> GotBroadcast(calls, Backup, 4, c.backupRound4.value))
  }

  /** The variables of a stage are set together, and only after those of the stage before. */
  predicate Staged(c: Closure) {
    && (c.userRound1.Some? <==> c.backupRound1.Some?)
    && (c.userRound3Bitgo.Some? <==> c.backupRound3Bitgo.Some?)
    && (c.userRound3Bitgo.Some? <==> c.userRound3Counter.Some?)
    && (c.userRound3Bitgo.Some? <==> c.backupRound3Counter.Some?)
    && (c.userRound4.Some? <==> c.backupRound4.Some?)
    && (c.userRound4.Some? ==> c.userRound3Bitgo.Some?)
    && (c.userRound3Bitgo.Some? ==> c.userRound1.Some?)
  }

  ghost predicate Inv(c: Closure, calls: seq<AwmCall>) {
    Staged(c) && Recorded(c, calls) && InOrder(calls) && StoresBitgoKeychain(calls)
  }

  // ----- Appending calls -----

  /** What earlier calls answered still stands when more calls are appended. */
  lemma StillReady(calls: seq<AwmCall>, more: seq<AwmCall>, c: AwmCall)
    requires Ready(calls, c)
    ensures Ready(calls + more, c)
  {
    if c.RoundCall? && c.input.round == 1 {
      var k: nat :| InitializedAt(calls, k)
                    && c.blob == InitOf(calls, k, c.source).blob
                    && c.input.counterPartyGpgPub == Some(InitOf(calls, k, c.source.Other()).gpgPub);
      assert InitializedAt(calls + more, k);
    } else if c.RoundCall? && c.input.round == 2 {
      var m :| GotBroadcast(calls, c.source, 1, m);
      assert GotBroadcast(calls + more, c.source, 1, m);
    } else if c.RoundCall? && c.input.round > 2 {
      var m :| GotCounterP2P(calls, c.source, c.input.round - 1, m);
      assert GotCounterP2P(calls + more, c.source, c.input.round - 1, m);
    } else if c.FinalizeCall? {
      var m :| GotBroadcast(calls, c.source, 4, m);
      assert GotBroadcast(calls + more, c.source, 4, m);
    }
  }

  lemma StillRecorded(c: Closure, calls: seq<AwmCall>, more: seq<AwmCall>)
    requires Recorded(c, calls)
    ensures Recorded(c, calls + more)
  {
  }

  lemma AppendOne(calls: seq<AwmCall>, c: AwmCall)
    requires InOrder(calls) && Ready(calls, c)
    ensures InOrder(calls + [c])
  {
    assert (calls + [c])[..|calls|] == calls;
  }

  /** The two calls of one step, each ready after the calls so far, keep the order. */
  lemma AppendTwo(calls: seq<AwmCall>, u: AwmCall, b: AwmCall)
    requires InOrder(calls) && Ready(calls, u) && Ready(calls, b)
    ensures InOrder(calls + [u, b])
  {
    StillReady(calls, [u], b);
    AppendOne(calls, u);
    AppendOne(calls + [u], b);
    assert calls + [u] + [b] == calls + [u, b];
  }

  lemma AppendTwoMore(calls: seq<AwmCall>, u: AwmCall, b: AwmCall, u': AwmCall, b': AwmCall)
    requires InOrder(calls + [u, b]) && Ready(calls + [u, b], u') && Ready(calls + [u, b], b')
    ensures InOrder(calls + [u, b, u', b'])
  {
    AppendTwo(calls + [u, b], u', b');
    assert calls + [u, b] + [u', b'] == calls + [u, b, u', b'];
  }

  /** Calls that are no finalize calls store nothing. */
  lemma NothingStored(calls: seq<AwmCall>, more: seq<AwmCall>)
    requires StoresBitgoKeychain(calls)
    requires forall k | 0 <= k < |more| :: !more[k].FinalizeCall?
    ensures StoresBitgoKeychain(calls + more)
  {
  }

  // ----- Each callback keeps the invariant -----

  lemma InitializeRecords(user: Awm, backup: Awm, c: Closure, calls: seq<AwmCall>, i: InitializeInput)
    requires Staged(c) && Recorded(c, calls)
    ensures var o := InitializeStep(user, backup, c, i); Staged(o.closure) && Recorded(o.closure, calls + o.calls)
  {
    var o := InitializeStep(user, backup, c, i);
    StillRecorded(c, calls, o.calls);
    if o.result.Ok? {
      var u, b := o.calls[2], o.calls[3];
      assert u in calls + o.calls && b in calls + o.calls;
      assert IsRound(u, User, 1) && HasBroadcast(u) && IsRound(b, Backup, 1) && HasBroadcast(b);
    }
  }

  /** The first calls of the callback need nothing; its round-1 calls follow its own initialize calls. */
  lemma Round1Ready(user: Awm, backup: Awm, c: Closure, calls: seq<AwmCall>, i: InitializeInput)
    ensures var more := InitializeStep(user, backup, c, i).calls;
            && (|more| <= 2 || |more| == 4)
            && (|more| > 0 ==> Ready(calls, more[0]))
            && (|more| > 1 ==> Ready(calls, more[1]))
            && (|more| > 2 ==> Ready(calls + [more[0], more[1]], more[2]) && Ready(calls + [more[0], more[1]], more[3]))
  {
    var more := InitializeStep(user, backup, c, i).calls;
    if |more| > 2 {
      assert InitializedAt(calls + [more[0], more[1]], |calls|);
      assert Introduced(calls + [more[0], more[1]], more[2]) && Introduced(calls + [more[0], more[1]], more[3]);
    }
  }

  lemma InitializeOrder(user: Awm, backup: Awm, c: Closure, calls: seq<AwmCall>, i: InitializeInput)
    requires InOrder(calls)
    ensures InOrder(calls + InitializeStep(user, backup, c, i).calls)
  {
    hide InitializeStep, Ready, InOrder;
    var more := InitializeStep(user, backup, c, i).calls;
    Round1Ready(user, backup, c, calls, i);
    if more == [] {
      assert calls + more == calls;
    } else if |more| == 1 {
      AppendOne(calls, more[0]);
      assert more == [more[0]];
    } else {
      AppendTwo(calls, more[0], more[1]);
      if |more| == 2 {
        assert more == [more[0], more[1]];
      } else {
        AppendTwoMore(calls, more[0], more[1], more[2], more[3]);
        assert more == [more[0], more[1], more[2], more[3]];
      }
    }
  }

  lemma InitializeKeeps(user: Awm, backup: Awm, c: Closure, calls: seq<AwmCall>, i: InitializeInput)
    requires Inv(c, calls)
    ensures var o := InitializeStep(user, backup, c, i); Inv(o.closure, calls + o.calls)
  {
    hide Staged, Recorded, InOrder, StoresBitgoKeychain;
    InitializeRecords(user, backup, c, calls, i);
    InitializeOrder(user, backup, c, calls, i);
    NothingStored(calls, InitializeStep(user, backup, c, i).calls);
  }

  /** A round-2 call is ready once both AWMs' round-1 broadcasts are there. */
  lemma BroadcastReady(calls: seq<AwmCall>, c: AwmCall, s: Source, bitgo: Broadcast, mine: Broadcast, theirs: Broadcast)
    requires IsRound(c, s, 2) && c.input == BroadcastInput(s, 2, bitgo, theirs)
    requires GotBroadcast(calls, s, 1, mine) && GotBroadcast(calls, s.Other(), 1, theirs)
    ensures Ready(calls, c)
  {
  }

  /** A round-3 or round-4 call is ready once both AWMs answered the round before. */
  lemma P2PReady(calls: seq<AwmCall>, c: AwmCall, s: Source, round: int, bitgo: P2P, mine: P2P, theirs: P2P)
    requires 3 <= round <= 4
    requires IsRound(c, s, round) && c.input == P2PInput(s, round, bitgo, theirs)
    requires GotCounterP2P(calls, s, round - 1, mine) && GotCounterP2P(calls, s.Other(), round - 1, theirs)
    ensures Ready(calls, c)
  {
  }

  /** The round-2 calls follow the recorded round-1 broadcasts. */
  lemma Round2Ready(user: Awm, backup: Awm, c: Closure, calls: seq<AwmCall>, i: Round2Input)
    requires Staged(c) && Recorded(c, calls)
    requires Round2Step(user, backup, c, i).calls != []
    ensures var o := Round2Step(user, backup, c, i);
            |o.calls| >= 2 && Ready(calls, o.calls[0]) && Ready(calls, o.calls[1])
  {
    var o := Round2Step(user, backup, c, i);
    var bitgo := FormatBroadcast(i.bitgoMsg1);
    BroadcastReady(calls, o.calls[0], User, bitgo, c.userRound1.value, c.backupRound1.value);
    BroadcastReady(calls, o.calls[1], Backup, bitgo, c.backupRound1.value, c.userRound1.value);
  }

  /** The round-3 calls of the same callback follow its round-2 answers. */
  lemma Round2ThenRound3(user: Awm, backup: Awm, c: Closure, calls: seq<AwmCall>, i: Round2Input)
    requires |Round2Step(user, backup, c, i).calls| > 2
    ensures var o := Round2Step(user, backup, c, i);
            && |o.calls| == 4
            && Ready(calls + [o.calls[0], o.calls[1]], o.calls[2])
            && Ready(calls + [o.calls[0], o.calls[1]], o.calls[3])
  {
    var o := Round2Step(user, backup, c, i);
    var (u, b) := (o.calls[0], o.calls[1]);
    var after := calls + [u, b];
    assert u in after && b in after;
    assert IsRound(u, User, 2) && HasP2Ps(u) && IsRound(b, Backup, 2) && HasP2Ps(b);
    assert GotCounterP2P(after, User, 2, CounterP2POf(u));
    assert GotCounterP2P(after, Backup, 2, CounterP2POf(b));
    P2PReady(after, o.calls[2], User, 3, FormatP2P(i.bitgoToUserMsg2, None), CounterP2POf(u), CounterP2POf(b));
    P2PReady(after, o.calls[3], Backup, 3, FormatP2P(i.bitgoToBackupMsg2, None), CounterP2POf(b), CounterP2POf(u));
  }

  lemma Round2Records(user: Awm, backup: Awm, c: Closure, calls: seq<AwmCall>, i: Round2Input)
    requires Staged(c) && Recorded(c, calls)
    ensures var o := Round2Step(user, backup, c, i); Staged(o.closure) && Recorded(o.closure, calls + o.calls)
  {
    var o := Round2Step(user, backup, c, i);
    StillRecorded(c, calls, o.calls);
    if o.result.Ok? {
      var u, b := o.calls[2], o.calls[3];
      assert u in calls + o.calls && b in calls + o.calls;
      assert IsRound(u, User, 3) && HasP2Ps(u) && IsRound(b, Backup, 3) && HasP2Ps(b);
    }
  }

  lemma Round2Order(user: Awm, backup: Awm, c: Closure, calls: seq<AwmCall>, i: Round2Input)
    requires Staged(c) && Recorded(c, calls) && InOrder(calls)
    ensures InOrder(calls + Round2Step(user, backup, c, i).calls)
  {
    hide Round2Step, Ready, Recorded, Staged, InOrder;
    var o := Round2Step(user, backup, c, i);
    if o.calls == [] {
      assert calls + o.calls == calls;
    } else {
      Round2Ready(user, backup, c, calls, i);
      AppendTwo(calls, o.calls[0], o.calls[1]);
      if |o.calls| == 2 {
        assert o.calls == [o.calls[0], o.calls[1]];
      } else {
        Round2ThenRound3(user, backup, c, calls, i);
        AppendTwoMore(calls, o.calls[0], o.calls[1], o.calls[2], o.calls[3]);
        assert o.calls == [o.calls[0], o.calls[1], o.calls[2], o.calls[3]];
      }
    }
  }

  lemma Round2Keeps(user: Awm, backup: Awm, c: Closure, calls: seq<AwmCall>, i: Round2Input)
    requires Inv(c, calls)
    ensures var o := Round2Step(user, backup, c, i); Inv(o.closure, calls + o.calls)
  {
    hide Staged, Recorded, InOrder, StoresBitgoKeychain;
    Round2Records(user, backup, c, calls, i);
    Round2Order(user, backup, c, calls, i);
    NothingStored(calls, Round2Step(user, backup, c, i).calls);
  }

  lemma Round3Records(user: Awm, backup: Awm, c: Closure, calls: seq<AwmCall>, i: Round3Input)
    requires Staged(c) && Recorded(c, calls)
    ensures var o := Round3Step(user, backup, c, i); Staged(o.closure) && Recorded(o.closure, calls + o.calls)
  {
    var o := Round3Step(user, backup, c, i);
    StillRecorded(c, calls, o.calls);
    if o.result.Ok? {
      var u, b := o.calls[0], o.calls[1];
      assert u in calls + o.calls && b in calls + o.calls;
      assert IsRound(u, User, 4) && HasBroadcast(u) && IsRound(b, Backup, 4) && HasBroadcast(b);
    }
  }

  lemma Round3Order(user: Awm, backup: Awm, c: Closure, calls: seq<AwmCall>, i: Round3Input)
    requires Staged(c) && Recorded(c, calls) && InOrder(calls)
    ensures InOrder(calls + Round3Step(user, backup, c, i).calls)
  {
    var o := Round3Step(user, backup, c, i);
    if o.calls == [] {
      assert calls + o.calls == calls;
    } else {
      var u, b := o.calls[0], o.calls[1];
      P2PReady(calls, u, User, 4, FormatP2P(i.bitgoToUserMsg3, i.bitgoCommitment2),
               c.userRound3Counter.value, c.backupRound3Counter.value);
      P2PReady(calls, b, Backup, 4, FormatP2P(i.bitgoToBackupMsg3, i.bitgoCommitment2),
               c.backupRound3Counter.value, c.userRound3Counter.value);
      AppendTwo(calls, u, b);
      assert o.calls == [u, b];
    }
  }

  lemma Round3Keeps(user: Awm, backup: Awm, c: Closure, calls: seq<AwmCall>, i: Round3Input)
    requires Inv(c, calls)
    ensures var o := Round3Step(user, backup, c, i); Inv(o.closure, calls + o.calls)
  {
    hide Staged, Recorded, InOrder, StoresBitgoKeychain;
    Round3Records(user, backup, c, calls, i);
    Round3Order(user, backup, c, calls, i);
    NothingStored(calls, Round3Step(user, backup, c, i).calls);
  }

  /** A finalize call stores a key only under the keychain it was given, and answers with that key. */
  lemma CallFinalizeStores(awm: Awm, blob: Blob, input: FinalizeInput, seed: Seed, post: Post, delivered: bool)
    requires ChecksKeychain(awm)
    ensures var c := CallFinalize(awm, blob, input, seed, post, delivered);
            && c.FinalizeCall?
            && StoresBitgoKeychain([c])
            && (c.outcome.result.Ok? ==>
                  && c.outcome.stored.Some?
                  && c.outcome.stored.value.pub == c.outcome.result.value.commonKeychain == input.bitgoCommonKeychain
                  && c.outcome.stored.value.source == input.source)
  {
    assert KeychainChecked(input, awm.finalize(blob, input, seed, post));
  }

  lemma FinalizeKeeps(user: Awm, backup: Awm, c: Closure, calls: seq<AwmCall>, i: FinalInput)
    requires ChecksKeychain(user) && ChecksKeychain(backup)
    requires Inv(c, calls)
    ensures var o := FinalizeStep(user, backup, c, i); Inv(o.closure, calls + o.calls)
  {
    var o := FinalizeStep(user, backup, c, i);
    StillRecorded(c, calls, o.calls);
    if o.calls == [] {
      assert calls + o.calls == calls;
    } else {
      assert GotBroadcast(calls, User, 4, c.userRound4.value);
      assert GotBroadcast(calls, Backup, 4, c.backupRound4.value);
      CallFinalizeStores(user, i.userState, FinalizeRequest(User, i, c.backupRound4.value),
                         i.userSeed, i.userPost, i.userDelivered);
      CallFinalizeStores(backup, i.backupState, FinalizeRequest(Backup, i, c.userRound4.value),
                         i.backupSeed, i.backupPost, i.backupDelivered);
      AppendTwo(calls, o.calls[0], o.calls[1]);
      assert o.calls == [o.calls[0], o.calls[1]];
      assert o.calls[0] in [o.calls[0]] && o.calls[1] in [o.calls[1]];
    }
  }

  // ----- Results over all runs -----

  /**
    Callback ordering. In every run, no AWM call of a round is issued before both AWMs
    answered the round before it, each AWM gets the other's own message, the variables fill
    up stage by stage, and every stored key stands under the keychain its call was given.
   */
  lemma {:induction false} CallbackOrdering(user: Awm, backup: Awm, cbs: seq<Callback>)
    requires ChecksKeychain(user) && ChecksKeychain(backup)
    ensures var w := Run(user, backup, cbs); Inv(w.closure, w.calls)
  {
    if cbs != [] {
      CallbackOrdering(user, backup, cbs[..|cbs| - 1]);
      var w := Run(user, backup, cbs[..|cbs| - 1]);
      match cbs[|cbs| - 1]
      case InitializeCb(i) => InitializeKeeps(user, backup, w.closure, w.calls, i);
      case Round2Cb(i) => Round2Keeps(user, backup, w.closure, w.calls, i);
      case Round3Cb(i) => Round3Keeps(user, backup, w.closure, w.calls, i);
      case FinalizeCb(i) => FinalizeKeeps(user, backup, w.closure, w.calls, i);
    }
  }

  predicate Succeeded(w: World, n: nat) {
    n < |w.results| && w.results[n].Some? && w.results[n].value.Initialized?
  }

  /** Only an initialize that succeeds sets its variables, and only while they are unset. */
  lemma StepInitializes(user: Awm, backup: Awm, w: World, cb: Callback)
    ensures var w' := Step(user, backup, w, cb);
            && |w'.results| == |w.results| + 1 && w'.results[..|w.results|] == w.results
            && (w'.closure.userRound1.Some? <==> w.closure.userRound1.Some? || Succeeded(w', |w.results|))
            && (Succeeded(w', |w.results|) ==> w.closure.userRound1.None?)
  {
  }

  /** Initialize succeeds at most once, and has succeeded exactly when its variables are set. */
  lemma {:induction false} InitializeOnce(user: Awm, backup: Awm, cbs: seq<Callback>)
    ensures var w := Run(user, backup, cbs);
            && (forall n: nat, m: nat :: Succeeded(w, n) && Succeeded(w, m) ==> n == m)
            && (w.closure.userRound1.Some? <==> exists n: nat :: Succeeded(w, n))
  {
    if cbs != [] {
      var before := Run(user, backup, cbs[..|cbs| - 1]);
      var w := Run(user, backup, cbs);
      InitializeOnce(user, backup, cbs[..|cbs| - 1]);
      StepInitializes(user, backup, before, cbs[|cbs| - 1]);
      SucceededBefore(before, w);
    }
  }

  lemma SucceededBefore(w: World, w': World)
    requires |w'.results| == |w.results| + 1 && w'.results[..|w.results|] == w.results
    ensures forall n: nat :: Succeeded(w', n) <==> Succeeded(w, n) || (n == |w.results| && Succeeded(w', n))
  {
    forall n: nat | n < |w.results| ensures Succeeded(w', n) <==> Succeeded(w, n) {
      assert w'.results[..|w.results|][n] == w'.results[n];
    }
  }

  /** Call `k` stored a key of this source under this keychain. */
  predicate StoredUnder(calls: seq<AwmCall>, k: nat, source: Source, keychain: string) {
    && k < |calls| && calls[k].FinalizeCall? && calls[k].source == source
    && calls[k].final.bitgoCommonKeychain == keychain
    && calls[k].outcome.stored.Some? && calls[k].outcome.stored.value.pub == keychain
    && calls[k].outcome.stored.value.source == source
  }

  /**
    Key agreement. When a finalize callback of any run returns K, then K is the keychain
    BitGo gave it, and both AWMs have stored their key under K.
   */
  lemma {:induction false} KeyAgreement(user: Awm, backup: Awm, cbs: seq<Callback>, n: nat)
    returns (u: nat, b: nat)
    requires ChecksKeychain(user) && ChecksKeychain(backup)
    requires n < |cbs|
    requires Run(user, backup, cbs).results[n].Some? && Run(user, backup, cbs).results[n].value.Finalized?
    ensures var K := Run(user, backup, cbs).results[n].value.commonKeychain;
            && cbs[n].FinalizeCb? && cbs[n].fin.bitgoCommonKeychain == K
            && StoredUnder(Run(user, backup, cbs).calls, u, User, K)
            && StoredUnder(Run(user, backup, cbs).calls, b, Backup, K)
  {
    var before := Run(user, backup, cbs[..|cbs| - 1]);
    var w := Run(user, backup, cbs);
    if n < |cbs| - 1 {
      assert w.results[n] == before.results[n];
      u, b := KeyAgreement(user, backup, cbs[..|cbs| - 1], n);
      assert before.calls <= w.calls;
    } else {
      var i := cbs[n].fin;
      var o := FinalizeStep(user, backup, before.closure, i);
      CallFinalizeStores(user, i.userState, FinalizeRequest(User, i, before.closure.backupRound4.value),
                         i.userSeed, i.userPost, i.userDelivered);
      CallFinalizeStores(backup, i.backupState, FinalizeRequest(Backup, i, before.closure.userRound4.value),
                         i.backupSeed, i.backupPost, i.backupDelivered);
      u, b := |before.calls|, |before.calls| + 1;
      assert w.calls[u] == o.calls[0] && w.calls[b] == o.calls[1];
    }
  }

  /** On two real AWMs every run keeps the ordering. */
  lemma ServersKeepOrder(user: Env, backup: Env, cbs: seq<Callback>)
    ensures var w := Run(Server(user), Server(backup), cbs); Inv(w.closure, w.calls)
  {
    ServerChecksKeychain(user);
    ServerChecksKeychain(backup);
    CallbackOrdering(Server(user), Server(backup), cbs);
  }

  /** On two real AWMs a keychain that a run returns is the one both stored under. */
  lemma ServersAgree(user: Env, backup: Env, cbs: seq<Callback>, n: nat) returns (u: nat, b: nat)
    requires n < |cbs|
    requires Run(Server(user), Server(backup), cbs).results[n].Some?
    requires Run(Server(user), Server(backup), cbs).results[n].value.Finalized?
    ensures var w := Run(Server(user), Server(backup), cbs);
            var K := w.results[n].value.commonKeychain;
            && cbs[n].FinalizeCb? && cbs[n].fin.bitgoCommonKeychain == K
            && StoredUnder(w.calls, u, User, K) && StoredUnder(w.calls, b, Backup, K)
  {
    ServerChecksKeychain(user);
    ServerChecksKeychain(backup);
    u, b := KeyAgreement(Server(user), Server(backup), cbs, n);
  }
}
