/**
  The polling worker that finishes async jobs: its overlap flag over any interleaving of
  timer ticks and completions, and what its handlers make of a job.
 */
module AsyncJobWorker {
  import opened Prelude
  import opened Json
  import opened AsyncUtils
  import opened JobBatch
  import SendManyFlow

  // ----- The handlers -----

  /** What the handlers call: wallets by coin and id, and the wallet generation of the SDK. */
  datatype Services = Services(
    wallets: string -> SendManyFlow.Wallets,
    generateWallet: (string, Fields, string, string) -> Option<string>)

  /** The shape of an independent keychain. */
  predicate KeychainSchema(m: Fields) {
    && IsString(Field(m, Id)) && IsString(Field(m, Pub)) && IsString(Field(m, Key.Coin))
    && (EncryptedPrv in m ==> m[EncryptedPrv].JStr?)
    && Field(m, Type) == Some(JStr("independent"))
    && Field(m, SourceField) in {Some(JStr("user")), Some(JStr("backup")), Some(JStr("bitgo"))}
  }

  function ParseKeychain(r: Option<AwmResponse>): Result<string> {
    var m :- ParseAwmResponseBody(r);
    if KeychainSchema(m) then Ok(m[Pub].s) else Err(Validation)
  }

  /** The wallet made from the two keychains that the AWM generated beforehand. */
  function HandleKeyGeneration(s: Services, job: Job): Result<Fields> {
    var user :- ParseKeychain(job.awmResponse);
    var backup :- ParseKeychain(job.awmBackupResponse);
    var params := if job.body.Some? then job.body.value else map[];
    var params := params[Type := JStr("advanced")][MultisigType := JStr("onchain")];
    var id :- s.generateWallet(job.coin, params, user, backup).OkOr(Network);
    Ok(map[WalletId := JStr(id)])
  }

  /** What the wallet of a keygen job is generated with: the job's own parameters, of this type and kind. */
  function GenerateField(job: Job, k: Key): Option<Json> {
    match k
    case Type => Some(JStr("advanced"))
    case MultisigType => Some(JStr("onchain"))
    case _ => if job.body.Some? then Field(job.body.value, k) else None
  }

  ghost predicate GeneratedWith(job: Job, params: Fields) {
    forall k :: Field(params, k) == GenerateField(job, k)
  }

  lemma GeneratedWithIs(job: Job, params: Fields)
    ensures GeneratedWith(job, params) <==>
              params == (if job.body.Some? then job.body.value else map[])
                          [Type := JStr("advanced")][MultisigType := JStr("onchain")]
  {
    var own := if job.body.Some? then job.body.value else map[];
    var p := own[Type := JStr("advanced")][MultisigType := JStr("onchain")];
    assert GeneratedWith(job, p);
    hide GenerateField;
    if GeneratedWith(job, params) {
      SameFields(params, p);
    }
  }

  /** The AWM's answer is a success that brings a keychain with this public key. */
  predicate BringsKey(r: Option<AwmResponse>, pub: string) {
    && r.Some? && r.value.status < 400 && r.value.error in {None, Some("")}
    && r.value.body.Keys >= {Id, Pub, Key.Coin, Type, SourceField}
    && r.value.body[Pub] == JStr(pub) && r.value.body[Id].JStr? && r.value.body[Key.Coin].JStr?
    && r.value.body[Type] == JStr("independent")
    && r.value.body[SourceField] in {JStr("user"), JStr("backup"), JStr("bitgo")}
    && (EncryptedPrv in r.value.body ==> r.value.body[EncryptedPrv].JStr?)
  }

  /**
    A keygen job ends with a wallet whose user key is the first server's and whose backup key
    is the second's, exactly when both answered with a keychain and the SDK makes the wallet.
   */
  lemma KeygenExactly(s: Services, job: Job, result: Fields)
    requires job.operation == MultisigKeygen
    ensures Outcome(s, job) == Some(Ok(result)) <==>
              exists params: Fields, user: string, backup: string, id: string ::
                && BringsKey(job.awmResponse, user) && BringsKey(job.awmBackupResponse, backup)
                && GeneratedWith(job, params)
                && s.generateWallet(job.coin, params, user, backup) == Some(id)
                && result == map[WalletId := JStr(id)]
  {
    hide BringsKey, ParseKeychain, GeneratedWith, KeychainSchema;
    var own := if job.body.Some? then job.body.value else map[];
    var params := own[Type := JStr("advanced")][MultisigType := JStr("onchain")];
    GeneratedWithIs(job, params);
    KeyBrought(job.awmResponse);
    KeyBrought(job.awmBackupResponse);
    if HandleKeyGeneration(s, job) == Ok(result) {
      var user, backup := ParseKeychain(job.awmResponse).value, ParseKeychain(job.awmBackupResponse).value;
      var id := s.generateWallet(job.coin, params, user, backup).value;
      assert BringsKey(job.awmResponse, user) && BringsKey(job.awmBackupResponse, backup)
             && GeneratedWith(job, params) && s.generateWallet(job.coin, params, user, backup) == Some(id);
    }
    if params', user, backup, id :| && BringsKey(job.awmResponse, user) && BringsKey(job.awmBackupResponse, backup)
                                    && GeneratedWith(job, params')
                                    && s.generateWallet(job.coin, params', user, backup) == Some(id)
                                    && result == map[WalletId := JStr(id)] {
      GeneratedWithIs(job, params');
    }
  }

  lemma KeyBrought(r: Option<AwmResponse>)
    ensures forall pub :: BringsKey(r, pub) <==> ParseKeychain(r) == Ok(pub)
  {
  }

  /** What a job's handler completes it with, for the operations that have one. */
  function Outcome(s: Services, job: Job): Option<Result<Fields>> {
    match job.operation
    case MultisigKeygen => Some(HandleKeyGeneration(s, job))
    case MultisigSign =>
      (match SendManyFlow.HandleSign(s.wallets(job.coin), job.body, job.awmResponse)
       case Ok(submission) => Some(Ok(submission.result))
       case Err(e) => Some(Err(e)))
    case MultisigRecovery => Some(ParseSignedTx(job.awmResponse))
    case MpcSign => None
    case MpcKeygen => None
  }

  function PlanOf(s: Services, job: Job): Plan {
    match Outcome(s, job)
    case None => NoHandler
    case Some(Ok(_)) => Completes
    case Some(Err(_)) => Throws
  }

  function Planning(s: Services): Planner {
    (job: Job) => PlanOf(s, job)
  }

  /** MPC operations have no handler: in no schedule does the worker write to their jobs. */
  lemma MpcJobsUntouched(s: Services, jobs: seq<Job>, store: Store, events: seq<Event>, i: nat)
    requires i < |jobs|
    ensures Planning(s)(jobs[i]) == NoHandler <==> jobs[i].operation in {MpcSign, MpcKeygen}
    ensures jobs[i].operation in {MpcSign, MpcKeygen} ==> LogOf(i, Run(Planning(s), jobs, store, events).log) == []
  {
    hide Run, LogOf;
    WriteDiscipline(Planning(s), jobs, store, events, i);
  }

  /** The bridge client, with the bridge behind it and the results it holds. */
  class BridgeClient {
    var store: Store
    var results: map<string, Fields>

    constructor (store: Store)
      ensures this.store == store && results == map[]
    {
      this.store, results := store, map[];
    }

    method UpdateJob(jobId: string, version: int, status: Status, result: Option<Fields>, net: Net)
      returns (threw: bool)
      modifies this
      ensures store == Update(old(store), jobId, version, status, net)
      ensures results == if result.Some? && Applies(old(store), jobId, version, net)
                         then old(results)[jobId := result.value] else old(results)
      ensures threw <==> !Applies(old(store), jobId, version, net) || net == ResponseLost
    {
      var applied := net != RequestLost && jobId in store && store[jobId].version == version;
      if applied {
        store := store[jobId := Record(store[jobId].version + 1, status)];
        if result.Some? {
          results := results[jobId := result.value];
        }
      }
      threw := !applied || net == ResponseLost;
    }
  }

  /**
    One job from start to end. Run without interruption, it does to the bridge what its two
    write attempts do in a batch of its own; a completion that is applied carries the outcome.
   */
  method ProcessJob(bridge: BridgeClient, s: Services, job: Job, net: Net, net': Net) returns (writes: seq<Status>)
    modifies bridge
    ensures var w := Run(Planning(s), [job], old(bridge.store), [Attempt(0, net), Attempt(0, net')]);
            && bridge.store == w.store && w.progress == [Settled]
            && |writes| == |w.log| && forall k | 0 <= k < |writes| :: writes[k] == w.log[k].status
    ensures bridge.results ==
              match Outcome(s, job)
              case Some(Ok(result)) =>
                if Applies(old(bridge.store), job.jobId, job.version, net) then old(bridge.results)[job.jobId := result]
                else old(bridge.results)
              case _ => old(bridge.results)
  {
    hide Outcome;
    RunTwo(Planning(s), [job], bridge.store, Attempt(0, net), Attempt(0, net'));
    writes := [];
    var outcome := Outcome(s, job);
    if outcome.None? {
      return;
    }
    var threw := outcome.value.Err?;
    var next := net;
    if !threw {
      threw := bridge.UpdateJob(job.jobId, job.version, Complete, Some(outcome.value.value), next);
      writes := writes + [Complete];
      next := net';
    }
    if threw {
      var _ := bridge.UpdateJob(job.jobId, job.version, Failed, None, next);
      writes := writes + [Failed];
    }
  }

  // ----- The worker -----

  /** One run of the timer callback: waiting for the listing, or for its jobs. */
  datatype Flight = Listing | Working(jobs: seq<Job>, progress: seq<Progress>) {
    ghost predicate Valid() { Working? ==> |progress| == |jobs| && !AllSettled(progress) }
  }

  datatype Worker = Worker(running: bool, polling: bool, flights: seq<Flight>, store: Store)

  datatype WorkerEvent =
    | Tick                                                 // the timer fires
    | Stop                                                 // the interval is cleared
    | Listed(flight: nat, jobs: Option<seq<Job>>)          // a listing arrives, or fails
    | Wrote(flight: nat, index: nat, net: Net)             // a job of a flight makes its next write
    | ByOthers(jobId: string, status: Status, steps: nat)  // another client writes to the bridge

  predicate AllSettled(progress: seq<Progress>) {
    forall i | 0 <= i < |progress| :: progress[i] == Settled
  }

  function Idle(store: Store): Worker {
    Worker(false, true, [], store)
  }

  /** The `finally` of a flight. */
  function End(s: Worker, k: nat): Worker
    requires k < |s.flights|
  {
    s.(running := false, flights := s.flights[..k] + s.flights[k + 1..])
  }

  function Progressed(s: Worker, k: nat, jobs: seq<Job>, progress: seq<Progress>): Worker
    requires k < |s.flights|
  {
    if AllSettled(progress) then End(s, k) else s.(flights := s.flights[k := Working(jobs, progress)])
  }

  function StepWorker(plan: Planner, s: Worker, e: WorkerEvent): Worker {
    match e
    case Tick => if !s.polling || s.running then s else s.(running := true, flights := s.flights + [Listing])
    case Stop => s.(polling := false)
    case Listed(k, jobs) =>
      if k >= |s.flights| || !s.flights[k].Listing? then s
      else if jobs.None? then End(s, k)
      else Progressed(s, k, jobs.value, Start(plan, jobs.value, s.store).progress)
    case Wrote(k, i, net) =>
      if k >= |s.flights| || !s.flights[k].Working? || |s.flights[k].progress| != |s.flights[k].jobs| then s
      else
        var f := s.flights[k];
        var w := Step(plan, f.jobs, World(s.store, f.progress, []), Attempt(i, net));
        Progressed(s.(store := w.store), k, f.jobs, w.progress)
    case ByOthers(id, status, steps) =>
      s.(store := Step(plan, [], World(s.store, [], []), Elsewhere(id, status, steps)).store)
  }

  function RunWorker(plan: Planner, store: Store, events: seq<WorkerEvent>): Worker {
    if events == [] then Idle(store)
    else StepWorker(plan, RunWorker(plan, store, events[..|events| - 1]), events[|events| - 1])
  }

  /** At most one flight, and the flag is set exactly while there is one. */
  ghost predicate Guarded(s: Worker) {
    && |s.flights| <= 1
    && (s.running <==> |s.flights| == 1)
    && forall f | f in s.flights :: f.Valid()
  }

  /** Over any interleaving, however its flights end, the worker stays guarded. */
  lemma {:induction false} WorkerSafety(plan: Planner, store: Store, events: seq<WorkerEvent>)
    ensures Guarded(RunWorker(plan, store, events))
  {
    if events != [] {
      WorkerSafety(plan, store, events[..|events| - 1]);
      StepGuarded(plan, RunWorker(plan, store, events[..|events| - 1]), events[|events| - 1]);
    }
  }

  lemma StepGuarded(plan: Planner, s: Worker, e: WorkerEvent)
    requires Guarded(s)
    ensures Guarded(StepWorker(plan, s, e))
  {
    hide Step, Start;
    assert |s.flights| == 1 ==> s.flights[0] in s.flights;
  }

  /** Job `i` of flight `k` is being handled. */
  predicate Handled(s: Worker, k: nat, i: nat) {
    && k < |s.flights| && s.flights[k].Working? && i < |s.flights[k].jobs| == |s.flights[k].progress|
    && s.flights[k].progress[i] != Settled
  }

  /** Two jobs that are handled at once are the same job. */
  ghost predicate HandledTwice(s: Worker) {
    exists k: nat, i: nat, k': nat, i': nat ::
      && Handled(s, k, i) && Handled(s, k', i') && (k != k' || i != i')
      && s.flights[k].jobs[i].jobId == s.flights[k'].jobs[i'].jobId
  }

  /** The listing names a job twice, each time with a handler. */
  predicate HasDoubles(plan: Planner, jobs: seq<Job>) {
    exists a, b | 0 <= a < b < |jobs| ::
      jobs[a].jobId == jobs[b].jobId && plan(jobs[a]) != NoHandler && plan(jobs[b]) != NoHandler
  }

  /** Flight `k` waits for a listing. */
  predicate Waiting(s: Worker, k: nat) {
    k < |s.flights| && s.flights[k].Listing?
  }

  /** Event `n` is a listing that a waiting flight takes up. */
  predicate TakenUp(plan: Planner, store: Store, events: seq<WorkerEvent>, n: nat) {
    && n < |events| && events[n].Listed? && events[n].jobs.Some?
    && Waiting(RunWorker(plan, store, events[..n]), events[n].flight)
  }

  /** The flight's jobs are those of a listing taken up before, and those in hand have a handler. */
  ghost predicate FromListing(plan: Planner, store: Store, events: seq<WorkerEvent>, f: Flight) {
    f.Working? ==>
      && |f.progress| == |f.jobs|
      && (exists n: nat :: TakenUp(plan, store, events, n) && events[n].jobs.value == f.jobs)
      && forall i | 0 <= i < |f.jobs| :: f.progress[i] != Settled ==> plan(f.jobs[i]) != NoHandler
  }

  lemma StillFromListing(plan: Planner, store: Store, events: seq<WorkerEvent>, e: WorkerEvent, f: Flight)
    requires FromListing(plan, store, events, f)
    ensures FromListing(plan, store, events + [e], f)
  {
    if f.Working? {
      var n: nat :| TakenUp(plan, store, events, n) && events[n].jobs.value == f.jobs;
      assert (events + [e])[..n] == events[..n];
      assert TakenUp(plan, store, events + [e], n);
    }
  }

  lemma {:induction false} FlightsAreListings(plan: Planner, store: Store, events: seq<WorkerEvent>)
    ensures forall f | f in RunWorker(plan, store, events).flights :: FromListing(plan, store, events, f)
  {
    if events != [] {
      hide FromListing;
      var before, e := events[..|events| - 1], events[|events| - 1];
      var s := RunWorker(plan, store, before);
      FlightsAreListings(plan, store, before);
      assert events == before + [e];
      forall f | f in StepWorker(plan, s, e).flights ensures FromListing(plan, store, events, f) {
        if f in s.flights {
          StillFromListing(plan, store, before, e, f);
        } else {
          NewFlight(plan, store, before, e, f);
        }
      }
    }
  }

  /** A flight that an event makes, or moves on, has a listing behind it too. */
  lemma NewFlight(plan: Planner, store: Store, events: seq<WorkerEvent>, e: WorkerEvent, f: Flight)
    requires var s := RunWorker(plan, store, events);
             && f !in s.flights && f in StepWorker(plan, s, e).flights
             && forall g | g in s.flights :: FromListing(plan, store, events, g)
    ensures FromListing(plan, store, events + [e], f)
  {
    hide RunWorker, Update, WriteOf, TakenUp;
    var s := RunWorker(plan, store, events);
    if e.Listed? && f.Working? {
      assert TakenUp(plan, store, events + [e], |events|) by { NowTakenUp(plan, store, events, e); }
    } else if e.Wrote? {
      var g := s.flights[e.flight];
      assert g in s.flights;
      StillFromListing(plan, store, events, e, g);
    }
  }

  lemma NowTakenUp(plan: Planner, store: Store, events: seq<WorkerEvent>, e: WorkerEvent)
    requires e.Listed? && e.jobs.Some? && Waiting(RunWorker(plan, store, events), e.flight)
    ensures TakenUp(plan, store, events + [e], |events|)
  {
    assert (events + [e])[..|events|] == events;
  }

  /** A listing with doubles, once taken up, has them handled at the same time. */
  lemma DoubleListingHandledTwice(plan: Planner, store: Store, events: seq<WorkerEvent>, n: nat)
    requires TakenUp(plan, store, events, n) && HasDoubles(plan, events[n].jobs.value)
    ensures HandledTwice(RunWorker(plan, store, events[..n + 1]))
  {
    var s, jobs := RunWorker(plan, store, events[..n]), events[n].jobs.value;
    var a, b :| 0 <= a < b < |jobs| && jobs[a].jobId == jobs[b].jobId
                && plan(jobs[a]) != NoHandler && plan(jobs[b]) != NoHandler;
    assert events[..n + 1][..n] == events[..n];
    var s' := RunWorker(plan, store, events[..n + 1]);
    assert s' == StepWorker(plan, s, events[n]);
    var progress := Start(plan, jobs, s.store).progress;
    assert progress[a] == Handling && progress[b] == Handling;
    assert Handled(s', events[n].flight, a) && Handled(s', events[n].flight, b);
  }

  /** Jobs handled twice were listed twice. */
  lemma HandledTwiceWasListedTwice(plan: Planner, store: Store, events: seq<WorkerEvent>) returns (n: nat)
    requires HandledTwice(RunWorker(plan, store, events))
    ensures TakenUp(plan, store, events, n) && HasDoubles(plan, events[n].jobs.value)
  {
    hide RunWorker, StepWorker;
    var s := RunWorker(plan, store, events);
    WorkerSafety(plan, store, events);
    FlightsAreListings(plan, store, events);
    var k: nat, i: nat, k': nat, i': nat :| Handled(s, k, i) && Handled(s, k', i') && (k != k' || i != i')
                                          && s.flights[k].jobs[i].jobId == s.flights[k'].jobs[i'].jobId;
    var f := s.flights[k];
    assert k == k' && f in s.flights && FromListing(plan, store, events, f);
    n :| TakenUp(plan, store, events, n) && events[n].jobs.value == f.jobs;
    var a, b := if i < i' then i else i', if i < i' then i' else i;
    assert 0 <= a < b < |f.jobs| && f.jobs[a].jobId == f.jobs[b].jobId;
  }

  /**
    No job twice. In a run some job is handled twice at the same time, by one flight or by
    two, exactly when a waiting flight takes up a listing that names a job with a handler twice.
   */
  lemma NoJobTwice(plan: Planner, store: Store, events: seq<WorkerEvent>)
    ensures (exists n: nat | n <= |events| :: HandledTwice(RunWorker(plan, store, events[..n]))) <==>
              exists n: nat | n < |events| :: TakenUp(plan, store, events, n) && HasDoubles(plan, events[n].jobs.value)
  {
    hide HandledTwice, HasDoubles, RunWorker;
    if n: nat :| n <= |events| && HandledTwice(RunWorker(plan, store, events[..n])) {
      var m := HandledTwiceWasListedTwice(plan, store, events[..n]);
      assert events[..n][..m] == events[..m];
      assert TakenUp(plan, store, events, m);
    }
    if n: nat :| n < |events| && TakenUp(plan, store, events, n) && HasDoubles(plan, events[n].jobs.value) {
      DoubleListingHandledTwice(plan, store, events, n);
      assert HandledTwice(RunWorker(plan, store, events[..n + 1]));
    }
  }

  // ----- The flag is released -----

  function Left(progress: seq<Progress>): nat {
    if progress == [] then 0
    else Left(progress[1..]) + match progress[0] case Handling => 2 case Failing => 1 case Settled => 0
  }

  lemma {:induction false} LeftUpdate(progress: seq<Progress>, i: nat, p: Progress)
    requires i < |progress| && progress[i] != Settled
    requires p == Settled || (p == Failing && progress[i] == Handling)
    ensures Left(progress[i := p]) < Left(progress)
  {
    if i > 0 {
      LeftUpdate(progress[1..], i - 1, p);
      assert progress[i := p][1..] == progress[1..][i - 1 := p];
    } else {
      assert progress[i := p][1..] == progress[1..];
    }
  }

  /** A planner's `NoHandler` jobs are settled from the start, so every job in hand has a next write. */
  ghost predicate Planned(plan: Planner, f: Flight) {
    f.Working? ==>
      && |f.progress| == |f.jobs|
      && forall i | 0 <= i < |f.jobs| :: f.progress[i] != Settled ==> NextWrite(plan(f.jobs[i]), f.progress[i]).Some?
  }

  lemma StepPlanned(plan: Planner, s: Worker, e: WorkerEvent)
    requires forall f | f in s.flights :: Planned(plan, f)
    ensures forall f | f in StepWorker(plan, s, e).flights :: Planned(plan, f)
  {
    hide Update, WriteOf;
    forall f | f in StepWorker(plan, s, e).flights && f !in s.flights ensures Planned(plan, f) {
      if e.Wrote? {
        assert s.flights[e.flight] in s.flights;
      }
    }
  }

  lemma {:induction false} RunPlanned(plan: Planner, store: Store, events: seq<WorkerEvent>)
    ensures forall f | f in RunWorker(plan, store, events).flights :: Planned(plan, f)
  {
    if events != [] {
      RunPlanned(plan, store, events[..|events| - 1]);
      StepPlanned(plan, RunWorker(plan, store, events[..|events| - 1]), events[|events| - 1]);
    }
  }

  /** Each write of a job in hand brings its flight closer to its end, whatever the bridge answers. */
  lemma WroteComesCloser(plan: Planner, s: Worker, i: nat, net: Net)
    requires Guarded(s) && Handled(s, 0, i) && Planned(plan, s.flights[0])
    ensures var s' := StepWorker(plan, s, Wrote(0, i, net));
            !s'.running || (s'.flights[0].Working? && Left(s'.flights[0].progress) < Left(s.flights[0].progress))
  {
    hide Update, Applies;
    var f := s.flights[0];
    var w := Step(plan, f.jobs, World(s.store, f.progress, []), Attempt(i, net));
    LeftUpdate(f.progress, i, w.progress[i]);
  }

  /** The event is the next write of a job in hand. */
  predicate Due(s: Worker, e: WorkerEvent) {
    e.Wrote? && e.flight == 0 && Handled(s, 0, e.index)
  }

  /** How many of the events are writes that were due when they came. */
  function Writes(plan: Planner, s: Worker, events: seq<WorkerEvent>): nat
    decreases |events|
  {
    if events == [] then 0
    else (if Due(s, events[0]) then 1 else 0) + Writes(plan, StepWorker(plan, s, events[0]), events[1..])
  }

  /** The flag is clear at some point of the events. */
  predicate Frees(plan: Planner, s: Worker, events: seq<WorkerEvent>)
    decreases |events|
  {
    !s.running || (events != [] && Frees(plan, StepWorker(plan, s, events[0]), events[1..]))
  }

  /** Any event of a working flight ends it or leaves it working, and a write that is due brings its end closer. */
  lemma EventComesCloser(plan: Planner, s: Worker, e: WorkerEvent)
    requires Guarded(s) && s.running && s.flights[0].Working? && Planned(plan, s.flights[0])
    ensures var s' := StepWorker(plan, s, e);
            && Guarded(s')
            && (s'.running ==>
                  && s'.flights[0].Working? && Planned(plan, s'.flights[0])
                  && Left(s'.flights[0].progress) + (if Due(s, e) then 1 else 0) <= Left(s.flights[0].progress))
  {
    hide Update, WriteOf, Left;
    StepGuarded(plan, s, e);
    assert forall f | f in s.flights :: Planned(plan, f);
    StepPlanned(plan, s, e);
    var s' := StepWorker(plan, s, e);
    assert s'.running ==> s'.flights[0] in s'.flights;
    if Due(s, e) {
      WroteComesCloser(plan, s, e.index, e.net);
    } else if e.Wrote? && e.flight == 0 {
      var f := s.flights[0];
      assert Step(plan, f.jobs, World(s.store, f.progress, []), Attempt(e.index, e.net)).progress == f.progress;
    }
  }

  lemma {:induction false} WritesRelease(plan: Planner, s: Worker, events: seq<WorkerEvent>)
    requires Guarded(s) && s.running && s.flights[0].Working? && Planned(plan, s.flights[0])
    requires Writes(plan, s, events) >= Left(s.flights[0].progress)
    ensures Frees(plan, s, events)
    decreases |events|
  {
    hide StepWorker, Left, Due;
    if events == [] {
      assert s.flights[0] in s.flights;
      var i: nat :| i < |s.flights[0].progress| && s.flights[0].progress[i] != Settled;
      LeftAt(s.flights[0].progress, i);
    } else {
      var s' := StepWorker(plan, s, events[0]);
      EventComesCloser(plan, s, events[0]);
      if s'.running {
        WritesRelease(plan, s', events[1..]);
      }
    }
  }

  lemma {:induction false} LeftAt(progress: seq<Progress>, i: nat)
    requires i < |progress| && progress[i] != Settled
    ensures Left(progress) > 0
  {
    if i > 0 {
      LeftAt(progress[1..], i - 1);
    }
  }

  lemma ListingEnds(plan: Planner, s: Worker, listing: Option<seq<Job>>)
    requires Guarded(s) && s.running && s.flights[0].Listing?
    ensures var s' := StepWorker(plan, s, Listed(0, listing));
            s'.running ==> |s'.flights| == 1 && s'.flights[0].Working?
  {
    hide Start;
  }

  /** The state in which a flight has its jobs: now, or once a listing that is still awaited arrives. */
  function WhenListed(plan: Planner, s: Worker, listing: Option<seq<Job>>): Worker {
    if Waiting(s, 0) then StepWorker(plan, s, Listed(0, listing)) else s
  }

  /**
    The flag never stays set for good. From every reachable state, once the listing is there,
    whatever it brings, either the flag is clear or some job's next write is due; and every
    sequence of events, in any order and with anything else in between, that contains as many
    due writes as are left frees the flag, whatever the bridge answers to each.
   */
  lemma FlagIsReleased(plan: Planner, store: Store, events: seq<WorkerEvent>, listing: Option<seq<Job>>,
                       more: seq<WorkerEvent>)
    ensures var s := WhenListed(plan, RunWorker(plan, store, events), listing);
            s.running ==>
              && |s.flights| == 1 && s.flights[0].Working?
              && (exists i: nat :: Handled(s, 0, i))
              && (Writes(plan, s, more) >= Left(s.flights[0].progress) ==> Frees(plan, s, more))
  {
    hide Step, Start, StepWorker, RunWorker, Left, Writes, Frees;
    var before := RunWorker(plan, store, events);
    WorkerSafety(plan, store, events);
    RunPlanned(plan, store, events);
    StepGuarded(plan, before, Listed(0, listing));
    StepPlanned(plan, before, Listed(0, listing));
    if before.running && Waiting(before, 0) {
      ListingEnds(plan, before, listing);
    }
    var s := WhenListed(plan, before, listing);
    if s.running {
      assert s.flights[0] in s.flights;
      var i: nat :| i < |s.flights[0].progress| && s.flights[0].progress[i] != Settled;
      assert Handled(s, 0, i);
      if Writes(plan, s, more) >= Left(s.flights[0].progress) {
        WritesRelease(plan, s, more);
      }
    }
  }

  /** The timer callback and its continuations, with the flag they share. */
  class Poller {
    const plan: Planner
    var isWorkerRunning: bool
    var polling: bool
    var flights: seq<Flight>
    var store: Store

    function State(): Worker
      reads this
    {
      Worker(isWorkerRunning, polling, flights, store)
    }

    constructor (plan: Planner, store: Store)
      ensures this.plan == plan && State() == Idle(store)
    {
      this.plan, isWorkerRunning, polling := plan, false, true;
      this.flights, this.store := [], store;
    }

    method OnTick()
      modifies this
      ensures State() == StepWorker(plan, old(State()), Tick)
    {
      if !polling || isWorkerRunning {
        return;
      }
      isWorkerRunning := true;
      flights := flights + [Listing];
    }

    method OnListed(k: nat, jobs: Option<seq<Job>>)
      requires k < |flights| && flights[k].Listing?
      modifies this
      ensures State() == StepWorker(plan, old(State()), Listed(k, jobs))
    {
      if jobs.None? {
        OnEnd(k);
        return;
      }
      var progress := seq(|jobs.value|, i requires 0 <= i < |jobs.value| => Begin(plan(jobs.value[i])));
      assert progress == Start(plan, jobs.value, store).progress;
      if AllSettled(progress) {
        OnEnd(k);
      } else {
        flights := flights[k := Working(jobs.value, progress)];
      }
    }

    /** A job of a flight makes its next write; after the last one the flight ends. */
    method OnWrote(k: nat, i: nat, net: Net)
      requires k < |flights| && flights[k].Working? && |flights[k].progress| == |flights[k].jobs|
      modifies this
      ensures State() == StepWorker(plan, old(State()), Wrote(k, i, net))
    {
      var jobs, progress := flights[k].jobs, flights[k].progress;
      if i < |jobs| && NextWrite(plan(jobs[i]), progress[i]).Some? {
        var status := NextWrite(plan(jobs[i]), progress[i]).value;
        var write := WriteOf(store, i, jobs[i], status, net);
        store := Update(store, jobs[i].jobId, jobs[i].version, status, net);
        progress := progress[i := AfterWrite(write)];
      }
      if AllSettled(progress) {
        OnEnd(k);
      } else {
        flights := flights[k := Working(jobs, progress)];
      }
    }

    /** The `finally` block. */
    method OnEnd(k: nat)
      requires k < |flights|
      modifies this
      ensures State() == End(old(State()), k)
    {
      isWorkerRunning := false;
      flights := flights[..k] + flights[k + 1..];
    }

    method StopPolling()
      modifies this
      ensures State() == StepWorker(plan, old(State()), Stop)
    {
      polling := false;
    }
  }
}
