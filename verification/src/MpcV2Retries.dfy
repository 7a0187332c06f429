/**
  Key generation runs in which callbacks are tried again, because they failed or because what
  the caller did with their answer failed. What counts are the four attempts whose answers the
  caller goes on with; every other attempt may have any input.
 */
module MpcV2Retries {
  import opened Prelude
  import opened MpcV2Awm
  import opened MpcV2Orchestrator
  import opened MpcV2Runs
  import opened MpcV2Simulation

  /** Where in a run the four attempts stand that the caller goes on with. */
  datatype Turns = Turns(first: nat, second: nat, third: nat, last: nat)

  predicate InTurn(at: Turns, n: nat) {
    at.first < at.second < at.third < at.last < n
  }

  // What the callback at `k` returned.

  function Initialize(w: World, k: nat): Option<InitializeOutput> {
    if k < |w.results| && w.results[k].Some? && w.results[k].value.Initialized? then Some(w.results[k].value.init)
    else None
  }

  function Round2(w: World, k: nat): Option<Round2Output> {
    if k < |w.results| && w.results[k].Some? && w.results[k].value.Round2Done? then Some(w.results[k].value.r2)
    else None
  }

  function Round3(w: World, k: nat): Option<Round3Output> {
    if k < |w.results| && w.results[k].Some? && w.results[k].value.Round3Done? then Some(w.results[k].value.r3)
    else None
  }

  function Keychain(w: World, k: nat): Option<string> {
    if k < |w.results| && w.results[k].Some? && w.results[k].value.Finalized? then
      Some(w.results[k].value.commonKeychain)
    else None
  }

  /**
    No attempt comes in between that would take its place: no initialize succeeds before
    `first`, no round 2 between `second` and `third`, no round 3 between `third` and `last`.
   */
  predicate Unreplaced(w: World, at: Turns) {
    && (forall k | 0 <= k < at.first :: Initialize(w, k).None?)
    && (forall k | at.second < k < at.third :: Round2(w, k).None?)
    && (forall k | at.third < k < at.last :: Round3(w, k).None?)
  }

  function Hears2(o: Round2Output): Heard<P2P> {
    Heard(o.userP2p, o.backupP2p)
  }

  /** The four attempts are called as in a straight run: each with what those before it returned. */
  ghost predicate Relayed(u: Env, b: Env, g: Bitgo, c: Chance, cbs: seq<Callback>, at: Turns)
    requires InTurn(at, |cbs|)
  {
    var w := Run(Server(u), Server(b), cbs);
    var r1, r2, r3 := Initialize(w, at.first), Round2(w, at.second), Round3(w, at.third);
    && cbs[at.first] == InitializeCb(InitializeArgs(g, c))
    && (r1.Some? ==> cbs[at.second] == Round2Cb(Round2Args(g, c, r1.value)))
    && (r1.Some? && r2.Some? ==> cbs[at.third] == Round3Cb(Round3Args(g, c, OpeningOf(r1.value), r2.value)))
    && (r1.Some? && r2.Some? && r3.Some? ==>
          cbs[at.last] == FinalizeCb(FinalizeArgs(g, c, OpeningOf(r1.value), Hears2(r2.value), r3.value)))
  }

  /** The AWM calls that a callback issues. */
  function CallsOf(user: Awm, backup: Awm, k: Closure, cb: Callback): seq<AwmCall> {
    match cb
    case InitializeCb(i) => InitializeStep(user, backup, k, i).calls
    case Round2Cb(i) => Round2Step(user, backup, k, i).calls
    case Round3Cb(i) => Round3Step(user, backup, k, i).calls
    case FinalizeCb(i) => FinalizeStep(user, backup, k, i).calls
  }

  /** The calls that the callback at `k` of a run issued. */
  function CallsAt(user: Awm, backup: Awm, cbs: seq<Callback>, k: nat): seq<AwmCall>
    requires k < |cbs|
  {
    CallsOf(user, backup, Run(user, backup, cbs[..k]).closure, cbs[k])
  }

  /** What moved in the four attempts that went through, and their outcome. */
  function Transcribe(u: Env, b: Env, cbs: seq<Callback>, at: Turns): Option<Transcript>
    requires InTurn(at, |cbs|)
  {
    var w := Run(Server(u), Server(b), cbs);
    var r1 :- Initialize(w, at.first);
    var r2 :- Round2(w, at.second);
    var r3 :- Round3(w, at.third);
    var keychain :- Keychain(w, at.last);
    var second, third := CallsAt(Server(u), Server(b), cbs, at.second), CallsAt(Server(u), Server(b), cbs, at.third);
    var last := CallsAt(Server(u), Server(b), cbs, at.last);
    if |second| != 4 || |third| != 2 || |last| != 2 || !Stored(last[0]) || !Stored(last[1]) then None
    else
      Some(Transcript(Boxes(second[0], second[1]), Boxes(second[2], second[3]), Boxes(third[0], third[1]),
                      Boxes(last[0], last[1]),
                      OpeningOf(r1), Hears2(r2),
                      Heard(r3.userP2p, r3.backupP2p), Heard(r3.userBroadcast, r3.backupBroadcast),
                      keychain, last[0].outcome.stored.value, last[1].outcome.stored.value))
  }

  // ----- Which callbacks write which variables -----

  lemma {:induction false} ResultsStand(user: Awm, backup: Awm, cbs: seq<Callback>, n: nat)
    requires n <= |cbs|
    ensures Run(user, backup, cbs[..n]).results == Run(user, backup, cbs).results[..n]
  {
    if n == |cbs| {
      assert cbs[..n] == cbs;
    } else {
      ResultsStand(user, backup, cbs[..|cbs| - 1], n);
      assert cbs[..|cbs| - 1][..n] == cbs[..n];
    }
  }

  /** The variables and the result after the callback at `k` are those of its step. */
  lemma RunAt(user: Awm, backup: Awm, cbs: seq<Callback>, k: nat)
    requires k < |cbs|
    ensures var w := Step(user, backup, Run(user, backup, cbs[..k]), cbs[k]);
            && Run(user, backup, cbs[..k + 1]).closure == w.closure
            && |w.results| == k + 1 && Run(user, backup, cbs).results[k] == w.results[k]
  {
    hide Step;
    assert cbs[..k + 1][..k] == cbs[..k];
    ResultsStand(user, backup, cbs, k + 1);
    assert Run(user, backup, cbs[..k + 1]).results[k] == Run(user, backup, cbs).results[k];
  }

  // The variables of each stage.

  function Round1Vars(k: Closure): (Option<Broadcast>, Option<Broadcast>) {
    (k.userRound1, k.backupRound1)
  }

  function Round3Vars(k: Closure): (Option<P2P>, Option<P2P>, Option<P2P>, Option<P2P>) {
    (k.userRound3Bitgo, k.backupRound3Bitgo, k.userRound3Counter, k.backupRound3Counter)
  }

  function Round4Vars(k: Closure): (Option<Broadcast>, Option<Broadcast>) {
    (k.userRound4, k.backupRound4)
  }

  /** A stage's variables change only when its own callback succeeds; round 1's only while unset. */
  lemma StepWrites(user: Awm, backup: Awm, w: World, cb: Callback)
    ensures var w' := Step(user, backup, w, cb);
            && |w'.results| == |w.results| + 1 && w'.results[|w.results|..] == [w'.results[|w.results|]]
            && (Initialize(w', |w.results|).None? || w.closure.userRound1.Some? ==>
                  Round1Vars(w.closure) == Round1Vars(w'.closure))
            && (w.closure.userRound1.Some? ==> w'.closure.userRound1.Some?)
            && (Round2(w', |w.results|).None? ==> Round3Vars(w.closure) == Round3Vars(w'.closure))
            && (Round3(w', |w.results|).None? ==> Round4Vars(w.closure) == Round4Vars(w'.closure))
  {
    hide CallRound, HasBroadcast, HasP2Ps, FromBitgo, CommonKeychain;
  }

  /** The same for the callback at `n` of a run. */
  lemma CallbackWrites(user: Awm, backup: Awm, cbs: seq<Callback>, n: nat)
    requires n < |cbs|
    ensures var w := Run(user, backup, cbs);
            var before, after := Run(user, backup, cbs[..n]).closure, Run(user, backup, cbs[..n + 1]).closure;
            && (Initialize(w, n).None? || before.userRound1.Some? ==> Round1Vars(before) == Round1Vars(after))
            && (before.userRound1.Some? ==> after.userRound1.Some?)
            && (Round2(w, n).None? ==> Round3Vars(before) == Round3Vars(after))
            && (Round3(w, n).None? ==> Round4Vars(before) == Round4Vars(after))
  {
    hide Step, Run, Round3Vars, Round4Vars;
    RunAt(user, backup, cbs, n);
    StepWrites(user, backup, Run(user, backup, cbs[..n]), cbs[n]);
  }

  /** Whatever else is called in between, a stage's variables stay while its callback does not succeed. */
  lemma {:induction false} VariablesStay(user: Awm, backup: Awm, cbs: seq<Callback>, j: nat, k: nat)
    requires j <= k <= |cbs|
    ensures var w := Run(user, backup, cbs);
            var before, after := Run(user, backup, cbs[..j]).closure, Run(user, backup, cbs[..k]).closure;
            && ((forall n | j <= n < k :: Initialize(w, n).None?) || before.userRound1.Some? ==>
                  Round1Vars(before) == Round1Vars(after))
            && (before.userRound1.Some? ==> after.userRound1.Some?)
            && ((forall n | j <= n < k :: Round2(w, n).None?) ==> Round3Vars(before) == Round3Vars(after))
            && ((forall n | j <= n < k :: Round3(w, n).None?) ==> Round4Vars(before) == Round4Vars(after))
  {
    hide Run, Initialize, Round2, Round3, Round1Vars, Round3Vars, Round4Vars;
    if j < k {
      VariablesStay(user, backup, cbs, j, k - 1);
      CallbackWrites(user, backup, cbs, k - 1);
    }
  }

  // ----- Which variables a callback reads -----

  lemma InitializeReads(user: Awm, backup: Awm, k: Closure, k': Closure, i: InitializeInput)
    requires k.userRound1.None? && k'.userRound1.None?
    ensures var o, o' := InitializeStep(user, backup, k, i), InitializeStep(user, backup, k', i);
            && o.result == o'.result && o.calls == o'.calls
            && (o.result.Ok? ==> Round1Vars(o.closure) == Round1Vars(o'.closure) && o'.closure.userRound1.Some?)
  {
    hide CallRound, HasBroadcast;
  }

  lemma Round2Reads(user: Awm, backup: Awm, k: Closure, k': Closure, i: Round2Input)
    requires Round1Vars(k) == Round1Vars(k')
    ensures var o, o' := Round2Step(user, backup, k, i), Round2Step(user, backup, k', i);
            && o.result == o'.result && o.calls == o'.calls
            && (o.result.Ok? ==> Round3Vars(o.closure) == Round3Vars(o'.closure))
  {
    hide CallRound, HasP2Ps, FromBitgo;
  }

  lemma Round3Reads(user: Awm, backup: Awm, k: Closure, k': Closure, i: Round3Input)
    requires Round3Vars(k) == Round3Vars(k')
    ensures var o, o' := Round3Step(user, backup, k, i), Round3Step(user, backup, k', i);
            && o.result == o'.result && o.calls == o'.calls
            && (o.result.Ok? ==> Round4Vars(o.closure) == Round4Vars(o'.closure))
  {
    hide CallRound, HasBroadcast, FromBitgo;
  }

  lemma FinalizeReads(user: Awm, backup: Awm, k: Closure, k': Closure, i: FinalInput)
    requires Round4Vars(k) == Round4Vars(k')
    ensures var o, o' := FinalizeStep(user, backup, k, i), FinalizeStep(user, backup, k', i);
            o.result == o'.result && o.calls == o'.calls
  {
  }

  // ----- The run with retries is the straight run -----

  /** The variables each attempt reads are those that the attempt before it left. */
  predicate Kept(user: Awm, backup: Awm, cbs: seq<Callback>, at: Turns)
    requires InTurn(at, |cbs|)
  {
    && Run(user, backup, cbs[..at.first]).closure.userRound1.None?
    && Round3Vars(Run(user, backup, cbs[..at.second + 1]).closure) ==
         Round3Vars(Run(user, backup, cbs[..at.third]).closure)
    && Round4Vars(Run(user, backup, cbs[..at.third + 1]).closure) ==
         Round4Vars(Run(user, backup, cbs[..at.last]).closure)
  }

  /** Round 1's variables are unset while no initialize has succeeded. */
  lemma Unset(user: Awm, backup: Awm, cbs: seq<Callback>, k: nat)
    requires k <= |cbs| && forall n | 0 <= n < k :: Initialize(Run(user, backup, cbs), n).None?
    ensures Run(user, backup, cbs[..k]).closure.userRound1.None?
  {
    hide Step, Initialize;
    assert cbs[..0] == [];
    VariablesStay(user, backup, cbs, 0, k);
  }

  lemma UnreplacedKept(user: Awm, backup: Awm, cbs: seq<Callback>, at: Turns)
    requires InTurn(at, |cbs|) && Unreplaced(Run(user, backup, cbs), at)
    ensures Kept(user, backup, cbs, at)
  {
    hide Run, Initialize, Round2, Round3, Round3Vars, Round4Vars;
    Unset(user, backup, cbs, at.first);
    VariablesStay(user, backup, cbs, at.second + 1, at.third);
    VariablesStay(user, backup, cbs, at.third + 1, at.last);
  }

  lemma KeptIsStraight(u: Env, b: Env, g: Bitgo, c: Chance, cbs: seq<Callback>, at: Turns)
    requires InTurn(at, |cbs|) && Relayed(u, b, g, c, cbs, at) && Kept(Server(u), Server(b), cbs, at)
    ensures Transcribe(u, b, cbs, at) == Real(u, b, g, c)
  {
    hide InitializeStep, Round2Step, Round3Step, FinalizeStep, Server, Run, Boxes;
    hide InitializeArgs, Round2Args, Round3Args, FinalizeArgs, Round1Vars, Round3Vars, Round4Vars;
    var user, backup := Server(u), Server(b);
    var i1 := InitializeArgs(g, c);
    RunAt(user, backup, cbs, at.first);
    InitializeReads(user, backup, FRESH, Run(user, backup, cbs[..at.first]).closure, i1);
    var s1 := InitializeStep(user, backup, FRESH, i1);
    if s1.result.Ok? {
      VariablesStay(user, backup, cbs, at.first + 1, at.second);
      RunAt(user, backup, cbs, at.second);
      var r1 := s1.result.value;
      var i2 := Round2Args(g, c, r1);
      Round2Reads(user, backup, s1.closure, Run(user, backup, cbs[..at.second]).closure, i2);
      var s2 := Round2Step(user, backup, s1.closure, i2);
      if s2.result.Ok? {
        RunAt(user, backup, cbs, at.third);
        var r2 := s2.result.value;
        var i3 := Round3Args(g, c, OpeningOf(r1), r2);
        Round3Reads(user, backup, s2.closure, Run(user, backup, cbs[..at.third]).closure, i3);
        var s3 := Round3Step(user, backup, s2.closure, i3);
        if s3.result.Ok? {
          RunAt(user, backup, cbs, at.last);
          FinalizeReads(user, backup, s3.closure, Run(user, backup, cbs[..at.last]).closure,
                        FinalizeArgs(g, c, OpeningOf(r1), Hears2(r2), s3.result.value));
        }
      }
    }
  }

  /** A finalize callback of this code stores both keys when it succeeds. */
  lemma FinalizeStores(u: Env, b: Env, k: Closure, i: FinalInput)
    requires FinalizeStep(Server(u), Server(b), k, i).result.Ok?
    ensures var calls := FinalizeStep(Server(u), Server(b), k, i).calls;
            |calls| == 2 && Stored(calls[0]) && Stored(calls[1])
  {
    ServerChecksKeychain(u);
    ServerChecksKeychain(b);
    CallFinalizeStores(Server(u), i.userState, FinalizeRequest(User, i, k.backupRound4.value),
                       i.userSeed, i.userPost, i.userDelivered);
    CallFinalizeStores(Server(b), i.backupState, FinalizeRequest(Backup, i, k.userRound4.value),
                       i.backupSeed, i.backupPost, i.backupDelivered);
  }

  /** A callback that succeeds has issued all its calls, and stored what it was to store. */
  lemma SuccessIsComplete(u: Env, b: Env, w: World, cb: Callback)
    requires Step(Server(u), Server(b), w, cb).results[|w.results|..] != [None]
    ensures var calls := CallsOf(Server(u), Server(b), w.closure, cb);
            match cb
            case InitializeCb(_) => |calls| == 4
            case Round2Cb(_) => |calls| == 4
            case Round3Cb(_) => |calls| == 2
            case FinalizeCb(_) => |calls| == 2 && Stored(calls[0]) && Stored(calls[1])
  {
    hide CallRound, HasBroadcast, HasP2Ps, FromBitgo, Server;
    var w' := Step(Server(u), Server(b), w, cb);
    assert w'.results[|w.results|..] == [w'.results[|w.results|]];
    if cb.FinalizeCb? {
      FinalizeStores(u, b, w.closure, cb.fin);
    }
  }

  /** The run has a transcript as soon as all four last attempts succeeded. */
  lemma Transcribed(u: Env, b: Env, g: Bitgo, c: Chance, cbs: seq<Callback>, at: Turns)
    requires InTurn(at, |cbs|) && Relayed(u, b, g, c, cbs, at)
    ensures var w := Run(Server(u), Server(b), cbs);
            Transcribe(u, b, cbs, at).Some? <==>
              && Initialize(w, at.first).Some? && Round2(w, at.second).Some?
              && Round3(w, at.third).Some? && Keychain(w, at.last).Some?
  {
    hide Step, CallsOf, Run, Server, Boxes, InitializeArgs, Round2Args, Round3Args, FinalizeArgs;
    var user, backup := Server(u), Server(b);
    var w := Run(user, backup, cbs);
    if Round2(w, at.second).Some? && Round3(w, at.third).Some? && Keychain(w, at.last).Some? {
      CompleteAt(u, b, cbs, at.second);
      CompleteAt(u, b, cbs, at.third);
      CompleteAt(u, b, cbs, at.last);
    }
  }

  lemma CompleteAt(u: Env, b: Env, cbs: seq<Callback>, k: nat)
    requires k < |cbs| && Run(Server(u), Server(b), cbs).results[k].Some?
    ensures var calls := CallsAt(Server(u), Server(b), cbs, k);
            match cbs[k]
            case InitializeCb(_) => |calls| == 4
            case Round2Cb(_) => |calls| == 4
            case Round3Cb(_) => |calls| == 2
            case FinalizeCb(_) => |calls| == 2 && Stored(calls[0]) && Stored(calls[1])
  {
    hide Step, Run, CallsOf, Server, Stored;
    RunAt(Server(u), Server(b), cbs, k);
    var w := Run(Server(u), Server(b), cbs[..k]);
    StepWrites(Server(u), Server(b), w, cbs[k]);
    SuccessIsComplete(u, b, w, cbs[k]);
  }

  /**
    Simulation under retries. However often callbacks fail before they go through, and
    whatever they were called with then, the attempts that go through leave the transcript of
    the ideal protocol for their own chance events; and they all go through exactly when the
    ideal protocol ends, none of them was disturbed, BitGo labelled its messages, and the
    keychain is not empty.
   */
  lemma RetriedSimulation(u: Env, b: Env, g: Bitgo, c: Chance, cbs: seq<Callback>, at: Turns, t: Transcript)
    requires Lawful(u) && Lawful(b) && KeysWrapped(u, b, c)
    requires InTurn(at, |cbs|) && Relayed(u, b, g, c, cbs, at)
    requires Unreplaced(Run(Server(u), Server(b), cbs), at)
    ensures var w := Run(Server(u), Server(b), cbs);
            Transcribe(u, b, cbs, at).Some? <==>
              && Initialize(w, at.first).Some? && Round2(w, at.second).Some?
              && Round3(w, at.third).Some? && Keychain(w, at.last).Some?
    ensures Transcribe(u, b, cbs, at) == Some(t) <==>
              Ideal(u, b, g, c) == Some(t) && Undisturbed(c) && Addressed(g, t) && t.keychain != ""
  {
    hide Transcribe, Real, Ideal, Relayed, Run;
    Transcribed(u, b, g, c, cbs, at);
    UnreplacedKept(Server(u), Server(b), cbs, at);
    KeptIsStraight(u, b, g, c, cbs, at);
    Simulation(u, b, g, c, t);
  }

  // ----- Exactly when retries are harmless -----

  // What a callback that succeeds says about the chance events and BitGo's messages.

  lemma InitializeWasUndisturbed(u: Env, b: Env, g: Bitgo, c: Chance, k: Closure)
    requires InitializeStep(Server(u), Server(b), k, InitializeArgs(g, c)).result.Ok?
    ensures Undisturbed1(c) && k.userRound1.None?
  {
  }

  lemma Round2WasUndisturbed(u: Env, b: Env, g: Bitgo, c: Chance, k: Closure, r1: InitializeOutput)
    requires Round2Step(Server(u), Server(b), k, Round2Args(g, c, r1)).result.Ok?
    ensures Undisturbed2(c) && g.round1.from == BITGO
    ensures FromBitgo(g.round2(OpeningOf(r1)).0, g.round2(OpeningOf(r1)).1)
  {
    hide Server;
  }

  lemma Round3WasUndisturbed(u: Env, b: Env, g: Bitgo, c: Chance, k: Closure, h1: Opening, r2: Round2Output)
    requires Round3Step(Server(u), Server(b), k, Round3Args(g, c, h1, r2)).result.Ok?
    ensures Undisturbed3(c)
    ensures FromBitgo(g.round3(h1, Hears2(r2)).toUser, g.round3(h1, Hears2(r2)).toBackup)
  {
    hide Server;
  }

  lemma FinalizeWasUndisturbed(u: Env, b: Env, g: Bitgo, c: Chance, k: Closure, h1: Opening, h2: Heard<P2P>,
                               r3: Round3Output)
    requires FinalizeStep(Server(u), Server(b), k, FinalizeArgs(g, c, h1, h2, r3)).result.Ok?
    ensures UndisturbedEnd(c) && g.round4(h1, h2, Heard(r3.userP2p, r3.backupP2p)).from == BITGO
    ensures FinalizeStep(Server(u), Server(b), k, FinalizeArgs(g, c, h1, h2, r3)).result.value != ""
  {
    hide KeyToStore;
  }

  /** All of it together, for a run whose four attempts went through. */
  lemma WentThrough(u: Env, b: Env, g: Bitgo, c: Chance, cbs: seq<Callback>, at: Turns, t: Transcript)
    requires InTurn(at, |cbs|) && Relayed(u, b, g, c, cbs, at) && Transcribe(u, b, cbs, at) == Some(t)
    ensures Undisturbed(c) && Addressed(g, t) && t.keychain != ""
    ensures Run(Server(u), Server(b), cbs[..at.first]).closure.userRound1.None?
  {
    hide InitializeStep, Round2Step, Round3Step, FinalizeStep, Server, Run, Boxes, FromBitgo;
    hide InitializeArgs, Round2Args, Round3Args, FinalizeArgs;
    var user, backup := Server(u), Server(b);
    var w := Run(user, backup, cbs);
    var r1, r2, r3 := Initialize(w, at.first).value, Round2(w, at.second).value, Round3(w, at.third).value;
    RunAt(user, backup, cbs, at.first);
    InitializeWasUndisturbed(u, b, g, c, Run(user, backup, cbs[..at.first]).closure);
    RunAt(user, backup, cbs, at.second);
    Round2WasUndisturbed(u, b, g, c, Run(user, backup, cbs[..at.second]).closure, r1);
    RunAt(user, backup, cbs, at.third);
    Round3WasUndisturbed(u, b, g, c, Run(user, backup, cbs[..at.third]).closure, OpeningOf(r1), r2);
    RunAt(user, backup, cbs, at.last);
    FinalizeWasUndisturbed(u, b, g, c, Run(user, backup, cbs[..at.last]).closure, OpeningOf(r1), Hears2(r2), r3);
  }

  /** What a round-3 callback delivers and hands on shows the variables it read. */
  lemma Round3Shows(user: Awm, backup: Awm, k: Closure, k': Closure, i: Round3Input)
    requires var o, o' := Round3Step(user, backup, k, i), Round3Step(user, backup, k', i);
             && o.result.Ok? && o'.result.Ok? && |o.calls| == 2 && |o'.calls| == 2
             && Boxes(o.calls[0], o.calls[1]) == Boxes(o'.calls[0], o'.calls[1])
             && o.result.value.userP2p == o'.result.value.userP2p
             && o.result.value.backupP2p == o'.result.value.backupP2p
    ensures Round3Vars(k) == Round3Vars(k')
  {
    hide HasBroadcast, FromBitgo, FormatP2P;
    var o, o' := Round3Step(user, backup, k, i), Round3Step(user, backup, k', i);
    var user4 := FormatP2P(i.bitgoToUserMsg3, i.bitgoCommitment2);
    var backup4 := FormatP2P(i.bitgoToBackupMsg3, i.bitgoCommitment2);
    assert Delivered(o.calls[0]).p2ps == [user4, k.backupRound3Counter.value];
    assert Delivered(o'.calls[0]).p2ps == [user4, k'.backupRound3Counter.value];
    assert Delivered(o.calls[1]).p2ps == [backup4, k.userRound3Counter.value];
    assert Delivered(o'.calls[1]).p2ps == [backup4, k'.userRound3Counter.value];
  }

  lemma FinalizeShows(user: Awm, backup: Awm, k: Closure, k': Closure, i: FinalInput)
    requires var o, o' := FinalizeStep(user, backup, k, i), FinalizeStep(user, backup, k', i);
             && |o.calls| == 2 && |o'.calls| == 2
             && Boxes(o.calls[0], o.calls[1]) == Boxes(o'.calls[0], o'.calls[1])
    ensures Round4Vars(k) == Round4Vars(k')
  {
    var o, o' := FinalizeStep(user, backup, k, i), FinalizeStep(user, backup, k', i);
    var bitgo := FormatBroadcast(i.bitgoMsg4);
    assert Delivered(o.calls[0]).broadcasts == [bitgo, k.backupRound4.value];
    assert Delivered(o'.calls[0]).broadcasts == [bitgo, k'.backupRound4.value];
    assert Delivered(o.calls[1]).broadcasts == [bitgo, k.userRound4.value];
    assert Delivered(o'.calls[1]).broadcasts == [bitgo, k'.userRound4.value];
  }

  /** If the straight run leaves the same transcript, then each attempt read what the one before it left. */
  lemma StraightIsKept(u: Env, b: Env, g: Bitgo, c: Chance, cbs: seq<Callback>, at: Turns, t: Transcript)
    requires InTurn(at, |cbs|) && Relayed(u, b, g, c, cbs, at)
    requires Transcribe(u, b, cbs, at) == Some(t) == Real(u, b, g, c)
    requires Run(Server(u), Server(b), cbs[..at.first]).closure.userRound1.None?
    ensures Kept(Server(u), Server(b), cbs, at)
  {
    hide InitializeStep, Round2Step, Round3Step, FinalizeStep, Server, Run, Boxes;
    hide InitializeArgs, Round2Args, Round3Args, FinalizeArgs, Round1Vars, Round3Vars, Round4Vars;
    var user, backup := Server(u), Server(b);
    var i1 := InitializeArgs(g, c);
    RunAt(user, backup, cbs, at.first);
    InitializeReads(user, backup, FRESH, Run(user, backup, cbs[..at.first]).closure, i1);
    var s1 := InitializeStep(user, backup, FRESH, i1);
    var r1 := s1.result.value;
    VariablesStay(user, backup, cbs, at.first + 1, at.second);
    RunAt(user, backup, cbs, at.second);
    var i2 := Round2Args(g, c, r1);
    Round2Reads(user, backup, s1.closure, Run(user, backup, cbs[..at.second]).closure, i2);
    var s2 := Round2Step(user, backup, s1.closure, i2);
    var r2 := s2.result.value;
    var i3 := Round3Args(g, c, OpeningOf(r1), r2);
    var k3 := Run(user, backup, cbs[..at.third]).closure;
    RunAt(user, backup, cbs, at.third);
    var s3 := Round3Step(user, backup, s2.closure, i3);
    Round3Shows(user, backup, s2.closure, k3, i3);
    Round3Reads(user, backup, s2.closure, k3, i3);
    RunAt(user, backup, cbs, at.last);
    FinalizeShows(user, backup, s3.closure, Run(user, backup, cbs[..at.last]).closure,
                  FinalizeArgs(g, c, OpeningOf(r1), Hears2(r2), s3.result.value));
  }

  /**
    Coherence of retries. Of a run whose four attempts all go through, whatever succeeds or
    fails in between, the transcript is that of the ideal protocol exactly when the round-3
    variables that `third` reads are still those that `second` left, and the round-4
    variables that `last` reads those that `third` left.
   */
  lemma RetryCoherence(u: Env, b: Env, g: Bitgo, c: Chance, cbs: seq<Callback>, at: Turns)
    requires Lawful(u) && Lawful(b) && KeysWrapped(u, b, c)
    requires InTurn(at, |cbs|) && Relayed(u, b, g, c, cbs, at) && Transcribe(u, b, cbs, at).Some?
    ensures Ideal(u, b, g, c) == Transcribe(u, b, cbs, at) <==> Kept(Server(u), Server(b), cbs, at)
  {
    hide Transcribe, Real, Ideal, Relayed, Kept, Run;
    var t := Transcribe(u, b, cbs, at).value;
    WentThrough(u, b, g, c, cbs, at, t);
    Simulation(u, b, g, c, t);
    if Kept(Server(u), Server(b), cbs, at) {
      KeptIsStraight(u, b, g, c, cbs, at);
    } else if Ideal(u, b, g, c) == Some(t) {
      StraightIsKept(u, b, g, c, cbs, at, t);
    }
  }

  // ----- The condition is needed -----

  function Tag(seed: Seed): string {
    if seed == 0 then "a" else "b"
  }

  function TaggedP2P(seed: Seed): P2P {
    P2P(0, 0, Sealed(Tag(seed), ""), None)
  }

  function TaggedAnswer(seed: Seed): RoundResponse {
    RoundResponse(0, Blob(Tag(seed), ""), Some(Broadcast(0, Signed("", ""))),
                  Some(Pair(Some(TaggedP2P(seed)), Some(TaggedP2P(seed)))))
  }

  /** An AWM that answers every round, each time with messages and a state of that call's own. */
  function Tagging(): Awm {
    Awm((source: Source, keys: InitKeys) => InitResponse("", Blob("", "")),
        (blob: Blob, req: RoundInput, seed: Seed) => Ok(TaggedAnswer(seed)),
        (blob: Blob, req: FinalizeInput, seed: Seed, post: Post) => FinalizeOutcome(None, Err(Internal)))
  }

  function TaggedRound2(seed: Seed): Round2Input {
    var coins := Coins(seed, true);
    Round2Input(SdkBroadcast(BITGO, "", ""), SdkP2P(BITGO, USER, "", ""), SdkP2P(BITGO, BACKUP, "", ""),
                Blob("", ""), Blob("", ""), coins, coins, coins, coins)
  }

  /** A round 2 of this AWM succeeds on any variables of round 1, and leaves its own messages. */
  lemma TaggedRound2Step(k: Closure, seed: Seed)
    requires k.userRound1.Some? && k.backupRound1.Some?
    ensures var o := Round2Step(Tagging(), Tagging(), k, TaggedRound2(seed));
            && o.result.Ok? && o.result.value.userState == Blob(Tag(seed), "")
            && o.closure.userRound1 == k.userRound1 && o.closure.backupRound1 == k.backupRound1
            && o.closure.userRound3Counter == o.closure.backupRound3Counter == Some(TaggedP2P(seed))
            && o.closure.userRound3Bitgo == o.closure.backupRound3Bitgo == Some(TaggedP2P(seed))
  {
    hide Tag;
  }

  /**
    Round 2 succeeds twice and the caller goes on with the first answer: the round-3 callback
    then brings each AWM its own state of the first and the counterparty's message of the second.
   */
  lemma RepeatedRound2(k: Closure) returns (i: Round3Input)
    requires k.userRound1.Some? && k.backupRound1.Some?
    ensures var first := Round2Step(Tagging(), Tagging(), k, TaggedRound2(0));
            var second := Round2Step(Tagging(), Tagging(), first.closure, TaggedRound2(1));
            var third := Round3Step(Tagging(), Tagging(), second.closure, i);
            && first.result.Ok? && second.result.Ok? && third.result.Ok? && |third.calls| == 2
            && i.userState == first.result.value.userState
            && third.calls[0].RoundCall? && third.calls[0].blob == first.result.value.userState
            && third.calls[0].input.p2pMessages.Some?
            && third.calls[0].input.p2pMessages.value.counterParty == second.closure.backupRound3Counter
            && second.closure.backupRound3Counter != first.closure.backupRound3Counter
  {
    var coins := Coins(0, true);
    i := Round3Input(None, SdkP2P(BITGO, USER, "", ""), SdkP2P(BITGO, BACKUP, "", ""),
                     Blob(Tag(0), ""), Blob(Tag(0), ""), coins, coins);
    TaggedRound2Step(k, 0);
    var first := Round2Step(Tagging(), Tagging(), k, TaggedRound2(0));
    TaggedRound2Step(first.closure, 1);
    hide Round2Step;
    assert Tag(0)[0] != Tag(1)[0];
  }
}
