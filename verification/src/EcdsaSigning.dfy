/**
  ECDSA MPCv2 signing in three rounds. The AWM draws a data key in round 1 and is given it
  back, wrapped, in the later rounds; two closure variables of Master Express carry it there.
 */
module EcdsaSigning {
  import opened Prelude

  // ----- The AWM -----

  datatype Response1 = Response1(
    share: string, encryptedRound1Session: string, encryptedUserGpgPrvKey: string, encryptedDataKey: string)

  datatype Response2 = Response2(share: string, encryptedRound2Session: string)

  /** A round-2 or round-3 request: the session is that of the round before. */
  datatype Request = Request(
    tx: string, encryptedDataKey: string, encryptedUserGpgPrvKey: string, encryptedSession: string, bitgoKey: string)

  /** A data key as the key provider generates it. */
  datatype DataKey = DataKey(plain: string, wrapped: string)

  datatype Draw = Draw(key: DataKey, seed: Seed)

  /** The key provider and the SDK's share generation; `opens` says which passphrase opens a sealed text. */
  datatype Lib = Lib(
    getKey: (string, Source) -> Option<string>,
    unwrapKey: string -> Option<string>,
    share1: (string, string, string, Seed) -> Option<(string, string, string)>,
    share2: (string, string, string, Request, Seed) -> Option<Response2>,
    share3: (string, string, string, Request, Seed) -> Option<string>,
    opens: (string, string) -> bool)

  /**
    The SDK seals what a round leaves under the passphrase it was given, and cannot go on
    with what its passphrase does not open. No sealed text opens under two passphrases.
   */
  ghost predicate SealLaw(lib: Lib) {
    && (forall tx, prv, pass, seed | lib.share1(tx, prv, pass, seed).Some? ::
          && lib.opens(lib.share1(tx, prv, pass, seed).value.1, pass)
          && lib.opens(lib.share1(tx, prv, pass, seed).value.2, pass))
    && (forall tx, prv, pass, req: Request, seed | lib.share2(tx, prv, pass, req, seed).Some? ::
          && lib.opens(req.encryptedSession, pass) && lib.opens(req.encryptedUserGpgPrvKey, pass)
          && lib.opens(lib.share2(tx, prv, pass, req, seed).value.encryptedRound2Session, pass))
    && (forall tx, prv, pass, req: Request, seed | lib.share3(tx, prv, pass, req, seed).Some? ::
          lib.opens(req.encryptedSession, pass) && lib.opens(req.encryptedUserGpgPrvKey, pass))
    && (forall c, pass, pass' | lib.opens(c, pass) && lib.opens(c, pass') :: pass == pass')
  }

  function GetPrv(lib: Lib, pub: string, source: Source): Result<string> {
    var prv :- lib.getKey(pub, source).OkOr(Network);
    if prv == "" then Err(Internal) else Ok(prv)
  }

  function Round1(lib: Lib, source: Source, pub: string, tx: string, draw: Draw): Result<Response1> {
    var prv :- GetPrv(lib, pub, source);
    var s :- lib.share1(tx, prv, draw.key.plain, draw.seed).OkOr(Internal);
    Ok(Response1(s.0, s.1, s.2, draw.key.wrapped))
  }

  /** The data key that a later round decrypts, once everything it needs is there. */
  function Passphrase(lib: Lib, req: Request): Result<string> {
    if || req.encryptedDataKey == "" || req.bitgoKey == ""
       || req.encryptedUserGpgPrvKey == "" || req.encryptedSession == "" then
      Err(Internal)
    else lib.unwrapKey(req.encryptedDataKey).OkOr(Network)
  }

  function Round2(lib: Lib, source: Source, pub: string, req: Request, seed: Seed): Result<Response2> {
    var prv :- GetPrv(lib, pub, source);
    var pass :- Passphrase(lib, req);
    lib.share2(req.tx, prv, pass, req, seed).OkOr(Internal)
  }

  function Round3(lib: Lib, source: Source, pub: string, req: Request, seed: Seed): Result<string> {
    var prv :- GetPrv(lib, pub, source);
    var pass :- Passphrase(lib, req);
    lib.share3(req.tx, prv, pass, req, seed).OkOr(Internal)
  }

  /** Round 1 answers with what the share generation makes of the key and a fresh data key, wrapped. */
  lemma Round1Exactly(lib: Lib, source: Source, pub: string, tx: string, draw: Draw, r: Response1)
    ensures Round1(lib, source, pub, tx, draw) == Ok(r) <==>
              exists prv ::
                && lib.getKey(pub, source) == Some(prv) && prv != ""
                && lib.share1(tx, prv, draw.key.plain, draw.seed) ==
                     Some((r.share, r.encryptedRound1Session, r.encryptedUserGpgPrvKey))
                && r.encryptedDataKey == draw.key.wrapped
  {
  }

  /** What a later round goes on with: the key, and the data key unwrapped, all inputs being there. */
  ghost predicate Ready(lib: Lib, source: Source, pub: string, req: Request, prv: string, pass: string) {
    && "" !in {prv, req.encryptedDataKey, req.bitgoKey, req.encryptedUserGpgPrvKey, req.encryptedSession}
    && lib.getKey(pub, source) == Some(prv)
    && lib.unwrapKey(req.encryptedDataKey) == Some(pass)
  }

  /** Rounds 2 and 3 answer exactly when they are ready and the share generation goes through. */
  lemma LaterRoundsExactly(lib: Lib, source: Source, pub: string, req: Request, seed: Seed, r2: Response2, r3: string)
    ensures Round2(lib, source, pub, req, seed) == Ok(r2) <==>
              exists prv, pass :: Ready(lib, source, pub, req, prv, pass)
                                  && lib.share2(req.tx, prv, pass, req, seed) == Some(r2)
    ensures Round3(lib, source, pub, req, seed) == Ok(r3) <==>
              exists prv, pass :: Ready(lib, source, pub, req, prv, pass)
                                  && lib.share3(req.tx, prv, pass, req, seed) == Some(r3)
  {
    var prv, pass := lib.getKey(pub, source), lib.unwrapKey(req.encryptedDataKey);
    if prv.Some? && pass.Some? {
      assert Ready(lib, source, pub, req, prv.value, pass.value) <==>
             GetPrv(lib, pub, source).Ok? && Passphrase(lib, req).Ok?;
    }
  }

  /** An AWM as its client sees it, for one key. */
  datatype Awm = Awm(
    round1: (string, Draw) -> Result<Response1>,
    round2: (Request, Seed) -> Result<Response2>,
    round3: (Request, Seed) -> Result<string>)

  function Server(lib: Lib, source: Source, pub: string): Awm {
    Awm((tx, draw) => Round1(lib, source, pub, tx, draw),
        (req, seed: Seed) => Round2(lib, source, pub, req, seed),
        (req, seed: Seed) => Round3(lib, source, pub, req, seed))
  }

  // ----- The three generators -----

  /** What the SDK passes to a later round; the two encrypted values are its own idea of the session. */
  datatype Params = Params(tx: string, encryptedUserGpgPrvKey: string, encryptedSession: string, bitgoKey: string)

  /** A call to the AWM with its answer; an answer may get lost. */
  datatype AwmCall =
    | Call1(draw: Draw, answer1: Result<Response1>)
    | Call2(req: Request, answer2: Result<Response2>)
    | Call3(req: Request, answer3: Result<string>)

  datatype Gen =
    | Gen1(tx: string, draw: Draw, delivered: bool)
    | Gen2(params: Params, seed: Seed, delivered: bool)
    | Gen3(params: Params, seed: Seed, delivered: bool)

  datatype World = World(round1: Option<Response1>, round2: Option<Response2>, log: seq<AwmCall>)

  function Receive<T>(delivered: bool, r: Result<T>): Result<T> {
    if delivered then r else Err(Network)
  }

  /** The session values are the closure's, whatever the SDK passes. */
  function LaterRequest(r1: Response1, session: string, p: Params): Request {
    Request(p.tx, r1.encryptedDataKey, r1.encryptedUserGpgPrvKey, session, p.bitgoKey)
  }

  function Step(awm: Awm, w: World, g: Gen): World {
    match g
    case Gen1(tx, draw, delivered) =>
      var answer := Receive(delivered, awm.round1(tx, draw));
      World(if answer.Ok? then Some(answer.value) else w.round1, w.round2, w.log + [Call1(draw, answer)])
    case Gen2(p, seed, delivered) =>
      if w.round1.None? then w
      else
        var req := LaterRequest(w.round1.value, w.round1.value.encryptedRound1Session, p);
        var answer := Receive(delivered, awm.round2(req, seed));
        World(w.round1, if answer.Ok? then Some(answer.value) else w.round2, w.log + [Call2(req, answer)])
    case Gen3(p, seed, delivered) =>
      if w.round2.None? || w.round1.None? then w
      else
        var req := LaterRequest(w.round1.value, w.round2.value.encryptedRound2Session, p);
        World(w.round1, w.round2, w.log + [Call3(req, Receive(delivered, awm.round3(req, seed)))])
  }

  function Run(awm: Awm, gens: seq<Gen>): World {
    if gens == [] then World(None, None, []) else Step(awm, Run(awm, gens[..|gens| - 1]), gens[|gens| - 1])
  }

  /** The generators as the SDK holds them: three methods over two shared variables. */
  class CustomSigners {
    const awm: Awm
    var round1Response: Option<Response1>
    var round2Response: Option<Response2>
    ghost var issued: seq<AwmCall>

    ghost function State(): World
      reads this
    {
      World(round1Response, round2Response, issued)
    }

    /** A round-2 answer is there only after a round-1 answer. */
    ghost predicate Valid()
      reads this
    {
      round2Response.Some? ==> round1Response.Some?
    }

    constructor (awm: Awm)
      ensures Valid() && this.awm == awm && State() == World(None, None, [])
    {
      this.awm, round1Response, round2Response, issued := awm, None, None, [];
    }

    method Round1Generator(tx: string, draw: Draw, delivered: bool) returns (r: Result<Response1>)
      requires Valid()
      modifies this
      ensures Valid() && State() == Step(awm, old(State()), Gen1(tx, draw, delivered))
      ensures r == Receive(delivered, awm.round1(tx, draw))
    {
      r := Receive(delivered, awm.round1(tx, draw));
      issued := issued + [Call1(draw, r)];
      if r.Ok? {
        round1Response := Some(r.value);
      }
    }

    method Round2Generator(params: Params, seed: Seed, delivered: bool) returns (r: Result<Response2>)
      requires Valid()
      modifies this
      ensures Valid() && State() == Step(awm, old(State()), Gen2(params, seed, delivered))
      ensures r.Ok? ==> round2Response == Some(r.value)
    {
      if round1Response.None? {
        return Err(Internal);
      }
      var req := LaterRequest(round1Response.value, round1Response.value.encryptedRound1Session, params);
      r := Receive(delivered, awm.round2(req, seed));
      issued := issued + [Call2(req, r)];
      if r.Ok? {
        round2Response := Some(r.value);
      }
    }

    method Round3Generator(params: Params, seed: Seed, delivered: bool) returns (r: Result<string>)
      requires Valid()
      modifies this`issued
      ensures Valid() && State() == Step(awm, old(State()), Gen3(params, seed, delivered))
      ensures r.Ok? ==> issued != [] && issued[|issued| - 1].Call3? && issued[|issued| - 1].answer3 == r
    {
      if round2Response.None? {
        return Err(Internal);
      }
      var req := LaterRequest(round1Response.value, round2Response.value.encryptedRound2Session, params);
      r := Receive(delivered, awm.round3(req, seed));
      issued := issued + [Call3(req, r)];
    }
  }

  // ----- Threading -----

  predicate Good1(c: AwmCall) { c.Call1? && c.answer1.Ok? }
  predicate Good2(c: AwmCall) { c.Call2? && c.answer2.Ok? }

  /** Where the last answered round-1 (round-2) call stands in the log, or -1. */
  function Last1(log: seq<AwmCall>): (k: int)
    ensures -1 <= k < |log| && (k >= 0 ==> Good1(log[k]))
    ensures forall j | k < j < |log| :: !Good1(log[j])
  {
    if log == [] then -1 else if Good1(log[|log| - 1]) then |log| - 1 else Last1(log[..|log| - 1])
  }

  function Last2(log: seq<AwmCall>): (k: int)
    ensures -1 <= k < |log| && (k >= 0 ==> Good2(log[k]))
    ensures forall j | k < j < |log| :: !Good2(log[j])
  {
    if log == [] then -1 else if Good2(log[|log| - 1]) then |log| - 1 else Last2(log[..|log| - 1])
  }

  /** What a call may carry, given the calls before it. */
  ghost predicate Threaded(before: seq<AwmCall>, c: AwmCall) {
    match c
    case Call1(_, _) => true
    case Call2(req, _) =>
      var a := Last1(before);
      && a >= 0
      && req.encryptedDataKey == before[a].answer1.value.encryptedDataKey
      && req.encryptedUserGpgPrvKey == before[a].answer1.value.encryptedUserGpgPrvKey
      && req.encryptedSession == before[a].answer1.value.encryptedRound1Session
    case Call3(req, _) =>
      var a, b := Last1(before), Last2(before);
      && a >= 0 && b >= 0
      && req.encryptedDataKey == before[a].answer1.value.encryptedDataKey
      && req.encryptedUserGpgPrvKey == before[a].answer1.value.encryptedUserGpgPrvKey
      && req.encryptedSession == before[b].answer2.value.encryptedRound2Session
  }

  /** The variables hold the last answers. */
  ghost predicate Current(w: World) {
    && w.round1 == (if Last1(w.log) < 0 then None else Some(w.log[Last1(w.log)].answer1.value))
    && w.round2 == (if Last2(w.log) < 0 then None else Some(w.log[Last2(w.log)].answer2.value))
    && (w.round2.Some? ==> w.round1.Some?)
  }

  lemma StepThreads(awm: Awm, w: World, g: Gen)
    requires Current(w)
    ensures var w' := Step(awm, w, g);
            && Current(w')
            && (w'.log == w.log ||
                (|w'.log| == |w.log| + 1 && w'.log[..|w.log|] == w.log && Threaded(w.log, w'.log[|w.log|])))
  {
    var w' := Step(awm, w, g);
    if w'.log != w.log {
      assert w'.log[..|w.log|] == w.log;
    }
  }

  lemma {:induction false} RunThreads(awm: Awm, gens: seq<Gen>)
    ensures Current(Run(awm, gens))
    ensures var log := Run(awm, gens).log; forall k | 0 <= k < |log| :: Threaded(log[..k], log[k])
  {
    hide Step, Threaded, Current;
    if gens == [] {
      assert Current(World(None, None, [])) by { EmptyIsCurrent(); }
    } else {
      var w := Run(awm, gens[..|gens| - 1]);
      RunThreads(awm, gens[..|gens| - 1]);
      StepThreads(awm, w, gens[|gens| - 1]);
      var log := Run(awm, gens).log;
      forall k | 0 <= k < |log| ensures Threaded(log[..k], log[k]) {
        if k < |w.log| {
          assert log[k] == w.log[k] && log[..k] == w.log[..k];
        }
      }
    }
  }

  lemma EmptyIsCurrent()
    ensures Current(World(None, None, []))
  {
  }

  /**
    Threading. In every order of generator calls, failures and repetitions included, no
    round-2 or round-3 call reaches the AWM before its predecessors were answered; a round-2
    call carries the data key, the GPG key and the session of one and the same round-1
    answer, the last; a round-3 call the last round-2 session. What the SDK passed for them
    plays no part.
   */
  lemma RoundsAreThreaded(awm: Awm, gens: seq<Gen>, k: nat)
    requires k < |Run(awm, gens).log|
    ensures Threaded(Run(awm, gens).log[..k], Run(awm, gens).log[k])
  {
    RunThreads(awm, gens);
  }

  /** The call is made for this transaction and this BitGo key, and its answer is the AWM's unless it is lost. */
  ghost predicate MadeFor(awm: Awm, g: Gen, c: AwmCall) {
    match g
    case Gen1(tx, draw, delivered) =>
      c == Call1(draw, if delivered then awm.round1(tx, draw) else Err(Network))
    case Gen2(p, seed, delivered) =>
      && c.Call2? && c.req.tx == p.tx && c.req.bitgoKey == p.bitgoKey
      && c.answer2 == if delivered then awm.round2(c.req, seed) else Err(Network)
    case Gen3(p, seed, delivered) =>
      && c.Call3? && c.req.tx == p.tx && c.req.bitgoKey == p.bitgoKey
      && c.answer3 == if delivered then awm.round3(c.req, seed) else Err(Network)
  }

  /** The calls so far allow this generator to make its own. */
  ghost predicate Allowed(log: seq<AwmCall>, g: Gen) {
    match g
    case Gen1(_, _, _) => true
    case Gen2(_, _, _) => exists c :: c in log && Good1(c)
    case Gen3(_, _, _) => exists c :: c in log && Good2(c)
  }

  /**
    Each generator call of any order makes one AWM call exactly when the round before it has
    been answered, and none otherwise; the call is for the transaction and the BitGo key it was given.
   */
  lemma EachMakesItsCall(awm: Awm, gens: seq<Gen>, g: Gen)
    ensures var log, log' := Run(awm, gens).log, Run(awm, gens + [g]).log;
            if Allowed(log, g) then |log'| == |log| + 1 && log'[..|log|] == log && MadeFor(awm, g, log'[|log|])
            else log' == log
  {
    RunThreads(awm, gens);
    var w := Run(awm, gens);
    assert (gens + [g])[..|gens|] == gens && Run(awm, gens + [g]) == Step(awm, w, g);
    assert (exists c :: c in w.log && Good1(c)) <==> Last1(w.log) >= 0;
    assert (exists c :: c in w.log && Good2(c)) <==> Last2(w.log) >= 0;
    hide Last1, Last2, Good1, Good2;
  }

  /** Every round-1 answer brings a data key of its own. */
  ghost predicate FreshKeys(log: seq<AwmCall>) {
    forall i, j | 0 <= i < j < |log| && Good1(log[i]) && Good1(log[j]) ::
      log[i].answer1.value.encryptedDataKey != log[j].answer1.value.encryptedDataKey
  }

  lemma ThreadedCoheres(log: seq<AwmCall>, k: nat)
    requires k < |log| && log[k].Call3? && FreshKeys(log)
    requires forall j | 0 <= j < |log| :: Threaded(log[..j], log[j])
    ensures var a, b := Last1(log[..k]), Last2(log[..k]);
            0 <= a && 0 <= b && (log[b].req.encryptedDataKey == log[k].req.encryptedDataKey <==> a < b)
  {
    hide Last1, Last2;
    assert Threaded(log[..k], log[k]);
    var a, b := Last1(log[..k]), Last2(log[..k]);
    assert log[..k][a] == log[a] && log[..k][b] == log[b];
    assert Threaded(log[..b], log[b]);
    var a' := Last1(log[..b]);
    assert log[..b][a'] == log[a'];
    if a < b {
      assert forall j | a < j < b :: log[..b][j] == log[j] && log[..k][j] == log[j];
      assert a' == a by {
        assert log[..b][a] == log[a];
      }
    } else {
      assert a' < b <= a && b != a;
    }
  }

  /**
    A round-3 call brings the data key under which its session was made exactly when no
    round 1 was answered between the two. A repeated round 1 leaves round 3 with a session
    it cannot open.
   */
  lemma Coherence(awm: Awm, gens: seq<Gen>, k: nat)
    requires k < |Run(awm, gens).log| && Run(awm, gens).log[k].Call3?
    requires FreshKeys(Run(awm, gens).log)
    ensures var log := Run(awm, gens).log;
            var a, b := Last1(log[..k]), Last2(log[..k]);
            0 <= a && 0 <= b && (log[b].req.encryptedDataKey == log[k].req.encryptedDataKey <==> a < b)
  {
    RunThreads(awm, gens);
    ThreadedCoheres(Run(awm, gens).log, k);
  }

  /** The condition is needed: round 1, round 2, round 1 again, round 3. */
  lemma RepeatedRound1() returns (awm: Awm, gens: seq<Gen>)
    ensures var log := Run(awm, gens).log;
            && |log| == 4 && log[1].Call2? && log[1].answer2.Ok? && log[3].Call3?
            && log[3].req.encryptedSession == log[1].answer2.value.encryptedRound2Session
            && log[3].req.encryptedDataKey != log[1].req.encryptedDataKey
  {
    awm := Awm((tx: string, draw: Draw) => Ok(Response1("", "", "", draw.key.wrapped)),
               (req: Request, seed: Seed) => Ok(Response2("", "")), (req: Request, seed: Seed) => Err(Internal));
    var p := Params("", "", "", "");
    var g1, g1' := Gen1("", Draw(DataKey("a", "a"), 0), true), Gen1("", Draw(DataKey("b", "b"), 0), true);
    var g2, g3 := Gen2(p, 0, true), Gen3(p, 0, true);
    gens := [g1, g2, g1', g3];
    assert gens[..3] == [g1, g2, g1'] && [g1, g2, g1'][..2] == [g1, g2] && [g1, g2][..1] == [g1] && [g1][..0] == [];
    var w0 := World(None, None, []);
    var w1 := Step(awm, w0, g1);
    assert Run(awm, [g1]) == w1;
    var w2 := Step(awm, w1, g2);
    assert Run(awm, [g1, g2]) == w2;
    var w3 := Step(awm, w2, g1');
    assert Run(awm, [g1, g2, g1']) == w3;
    assert w3.round1 == Some(Response1("", "", "", "b")) && w2.round1 == Some(Response1("", "", "", "a"));
    assert "a"[0] != "b"[0];
  }

  // ----- On a real AWM -----

  ghost predicate GenuineDraws(lib: Lib, gens: seq<Gen>) {
    forall g | g in gens && g.Gen1? :: lib.unwrapKey(g.draw.key.wrapped) == Some(g.draw.key.plain)
  }

  /** Each logged call is one that the server answered, and each drawn data key is genuine. */
  ghost predicate Served(lib: Lib, source: Source, pub: string, c: AwmCall) {
    match c
    case Call1(draw, answer) =>
      && lib.unwrapKey(draw.key.wrapped) == Some(draw.key.plain)
      && (answer.Ok? ==> exists tx :: answer == Round1(lib, source, pub, tx, draw))
    case Call2(req, answer) => answer.Ok? ==> exists seed :: answer == Round2(lib, source, pub, req, seed)
    case Call3(req, answer) => answer.Ok? ==> exists seed :: answer == Round3(lib, source, pub, req, seed)
  }

  lemma {:induction false} AllServed(lib: Lib, source: Source, pub: string, gens: seq<Gen>)
    requires GenuineDraws(lib, gens)
    ensures forall c | c in Run(Server(lib, source, pub), gens).log :: Served(lib, source, pub, c)
  {
    hide Round1, Round2, Round3;
    if gens != [] {
      AllServed(lib, source, pub, gens[..|gens| - 1]);
      assert gens[|gens| - 1] in gens;
    }
  }

  /**
    One passphrase. Whatever the SDK passes and however calls are repeated, rounds 2 and 3
    unwrap the data key that the last answered round 1 generated; and a round 3 that the AWM
    answers has had no round 1 between it and its round 2, unless that drew the same key.
   */
  lemma OnePassphrase(lib: Lib, source: Source, pub: string, gens: seq<Gen>, k: nat)
    requires SealLaw(lib) && GenuineDraws(lib, gens)
    requires k < |Run(Server(lib, source, pub), gens).log| && !Run(Server(lib, source, pub), gens).log[k].Call1?
    ensures var log := Run(Server(lib, source, pub), gens).log;
            var a := Last1(log[..k]);
            && a >= 0
            && lib.unwrapKey(log[k].req.encryptedDataKey) == Some(log[a].draw.key.plain)
            && (log[k].Call3? && log[k].answer3.Ok? ==>
                  && Last2(log[..k]) >= 0
                  && lib.unwrapKey(log[Last2(log[..k])].req.encryptedDataKey) == Some(log[a].draw.key.plain))
  {
    hide SealLaw;
    var awm := Server(lib, source, pub);
    var log := Run(awm, gens).log;
    RunThreads(awm, gens);
    AllServed(lib, source, pub, gens);
    assert Threaded(log[..k], log[k]);
    var a := Last1(log[..k]);
    assert Served(lib, source, pub, log[a]) && Served(lib, source, pub, log[k]);
    if log[k].Call3? && log[k].answer3.Ok? {
      var b := Last2(log[..k]);
      assert Served(lib, source, pub, log[b]);
      SessionOpens(lib, source, pub, log[b], log[k]);
    }
  }

  /** Round 3 goes on only from a session made under the passphrase it unwraps. */
  lemma SessionOpens(lib: Lib, source: Source, pub: string, c2: AwmCall, c3: AwmCall)
    requires SealLaw(lib) && Served(lib, source, pub, c2) && Served(lib, source, pub, c3)
    requires Good2(c2) && c3.Call3? && c3.answer3.Ok?
    requires c3.req.encryptedSession == c2.answer2.value.encryptedRound2Session
    ensures lib.unwrapKey(c2.req.encryptedDataKey) == lib.unwrapKey(c3.req.encryptedDataKey)
  {
    var s2 :| c2.answer2 == Round2(lib, source, pub, c2.req, s2);
    var s3 :| c3.answer3 == Round3(lib, source, pub, c3.req, s3);
    var prv := lib.getKey(pub, source).value;
    var p2, p3 := lib.unwrapKey(c2.req.encryptedDataKey).value, lib.unwrapKey(c3.req.encryptedDataKey).value;
    assert lib.share2(c2.req.tx, prv, p2, c2.req, s2).Some? && lib.share3(c3.req.tx, prv, p3, c3.req, s3).Some?;
    assert lib.opens(c3.req.encryptedSession, p2) && lib.opens(c3.req.encryptedSession, p3);
  }
}
