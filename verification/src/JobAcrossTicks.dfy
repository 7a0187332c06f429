/**
  One job over many ticks of the worker: how often its transaction is submitted. The sign
  handler submits before its job's first write to the bridge.
 */
module JobAcrossTicks {
  import opened Prelude
  import opened Json
  import opened AsyncUtils
  import opened MultisigSign
  import opened JobBatch
  import opened AsyncJobWorker
  import SendManyFlow

  /** What the bridge lists: every job that awaits BitGo, once, with its version. */
  ghost predicate Lists(store: Store, jobs: seq<Job>) {
    && (forall i, j | 0 <= i < j < |jobs| :: jobs[i].jobId != jobs[j].jobId)
    && (forall j | j in jobs :: Look(store, j.jobId) == Some(Record(j.version, AwaitingBitgo)))
    && (forall id | id in store && store[id].status == AwaitingBitgo :: Named(jobs, id))
  }

  ghost predicate Named(jobs: seq<Job>, id: string) {
    exists j :: j in jobs && j.jobId == id
  }

  /** A waiting flight takes up a listing. */
  predicate TakesUp(s: Worker, e: WorkerEvent) {
    e.Listed? && e.jobs.Some? && Waiting(s, e.flight)
  }

  /** A write of this job, due now. */
  predicate DueFor(s: Worker, e: WorkerEvent, id: string) {
    Due(s, e) && s.flights[0].jobs[e.index].jobId == id
  }

  /** No other client writes to the job, and a listing that is taken up is true and has the job as it is. */
  ghost predicate Fair(s: Worker, e: WorkerEvent, job: Job) {
    && (e.ByOthers? ==> e.jobId != job.jobId)
    && (TakesUp(s, e) ==>
          Lists(s.store, e.jobs.value) && forall j | j in e.jobs.value && j.jobId == job.jobId :: j == job)
  }

  ghost predicate AllFair(plan: Planner, s: Worker, events: seq<WorkerEvent>, job: Job)
    decreases |events|
  {
    events == [] || (Fair(s, events[0], job) && AllFair(plan, StepWorker(plan, s, events[0]), events[1..], job))
  }

  /** Every write of the job is lost on its way to the bridge. */
  predicate AllLost(plan: Planner, s: Worker, events: seq<WorkerEvent>, id: string)
    decreases |events|
  {
    events == [] ||
    ((DueFor(s, events[0], id) ==> events[0].net == RequestLost)
     && AllLost(plan, StepWorker(plan, s, events[0]), events[1..], id))
  }

  function RunFrom(plan: Planner, s: Worker, events: seq<WorkerEvent>): Worker
    decreases |events|
  {
    if events == [] then s else RunFrom(plan, StepWorker(plan, s, events[0]), events[1..])
  }

  /** The worker is sound, and holds this job at this version only. */
  ghost predicate Holds(plan: Planner, s: Worker, id: string, version: int) {
    && Guarded(s)
    && (forall f | f in s.flights :: Planned(plan, f))
    && (forall i: nat | Handled(s, 0, i) ::
          s.flights[0].jobs[i].jobId == id ==> s.flights[0].jobs[i].version == version)
  }

  /** The job as it was listed, or finished by this worker. */
  predicate AsListed(s: Worker, id: string, version: int) {
    Look(s.store, id) == Some(Record(version, AwaitingBitgo))
  }

  predicate Finished(s: Worker, id: string, version: int) {
    id in s.store && s.store[id].version > version && s.store[id].status in {Complete, Failed}
  }

  /** A write of a flight's job: only this job's own write, if it reaches the bridge, finishes it. */
  lemma WriteFinishes(plan: Planner, s: Worker, e: WorkerEvent, id: string, version: int)
    requires Holds(plan, s, id, version) && e.Wrote?
    requires AsListed(s, id, version) || Finished(s, id, version)
    ensures var s' := StepWorker(plan, s, e);
            && (forall i: nat | Handled(s', 0, i) :: Handled(s, 0, i) && s'.flights[0].jobs == s.flights[0].jobs)
            && (if AsListed(s, id, version) && (DueFor(s, e, id) ==> e.net == RequestLost)
                then AsListed(s', id, version) else Finished(s', id, version))
  {
    hide AllSettled;
    if Waiting(s, e.flight) || e.flight >= |s.flights| {
      assert StepWorker(plan, s, e) == s;
    } else {
      var f := s.flights[0];
      assert f in s.flights && Planned(plan, f);
      if Handled(s, 0, e.index) {
        assert NextWrite(plan(f.jobs[e.index]), f.progress[e.index]).Some?;
      } else {
        var w := World(s.store, f.progress, []);
        assert Step(plan, f.jobs, w, Attempt(e.index, e.net)) == w;
      }
    }
  }

  /** Any other event leaves the job as it is, and a flight that now holds it holds it at its version. */
  lemma OtherEventKeeps(plan: Planner, s: Worker, e: WorkerEvent, job: Job)
    requires Holds(plan, s, job.jobId, job.version) && Fair(s, e, job) && !e.Wrote?
    requires AsListed(s, job.jobId, job.version) || Finished(s, job.jobId, job.version)
    ensures var s' := StepWorker(plan, s, e);
            && (forall i: nat | Handled(s', 0, i) ::
                  s'.flights[0].jobs[i].jobId == job.jobId ==> s'.flights[0].jobs[i].version == job.version)
            && (AsListed(s, job.jobId, job.version) <==> AsListed(s', job.jobId, job.version))
            && (Finished(s, job.jobId, job.version) <==> Finished(s', job.jobId, job.version))
  {
    hide Start, Lists, Planned;
  }

  /** One event leaves the job as listed exactly when it is no write of it that reaches the bridge. */
  lemma EventFinishes(plan: Planner, s: Worker, e: WorkerEvent, job: Job)
    requires Holds(plan, s, job.jobId, job.version) && Fair(s, e, job)
    requires AsListed(s, job.jobId, job.version) || Finished(s, job.jobId, job.version)
    ensures var s' := StepWorker(plan, s, e);
            && Holds(plan, s', job.jobId, job.version)
            && (if AsListed(s, job.jobId, job.version) && (DueFor(s, e, job.jobId) ==> e.net == RequestLost)
                then AsListed(s', job.jobId, job.version) else Finished(s', job.jobId, job.version))
  {
    hide StepWorker, Planned, Guarded, Fair, AsListed, Finished;
    StepGuarded(plan, s, e);
    StepPlanned(plan, s, e);
    if e.Wrote? {
      WriteFinishes(plan, s, e, job.jobId, job.version);
    } else {
      OtherEventKeeps(plan, s, e, job);
      OneState(s, job.jobId, job.version);
    }
  }

  lemma OneState(s: Worker, id: string, version: int)
    ensures !(AsListed(s, id, version) && Finished(s, id, version))
  {
  }

  lemma {:induction false} EventsFinish(plan: Planner, s: Worker, events: seq<WorkerEvent>, job: Job)
    requires Holds(plan, s, job.jobId, job.version) && AllFair(plan, s, events, job)
    requires AsListed(s, job.jobId, job.version) || Finished(s, job.jobId, job.version)
    ensures var s' := RunFrom(plan, s, events);
            && Holds(plan, s', job.jobId, job.version)
            && (if AsListed(s, job.jobId, job.version) && AllLost(plan, s, events, job.jobId)
                then AsListed(s', job.jobId, job.version) else Finished(s', job.jobId, job.version))
    decreases |events|
  {
    hide StepWorker, Holds, Fair;
    if events != [] {
      EventFinishes(plan, s, events[0], job);
      EventsFinish(plan, StepWorker(plan, s, events[0]), events[1..], job);
    }
  }

  // ----- Handled again -----

  /** The job is in hand. */
  ghost predicate InHand(s: Worker, job: Job) {
    exists i: nat :: Handled(s, 0, i) && s.flights[0].jobs[i] == job
  }

  /** A true listing puts the job in hand exactly when the bridge has it as it was. */
  lemma TakenUpAsListed(plan: Planner, s: Worker, jobs: seq<Job>, job: Job)
    requires Guarded(s) && Waiting(s, 0) && Fair(s, Listed(0, Some(jobs)), job) && plan(job) != NoHandler
    requires AsListed(s, job.jobId, job.version) || Finished(s, job.jobId, job.version)
    ensures InHand(StepWorker(plan, s, Listed(0, Some(jobs))), job) <==> AsListed(s, job.jobId, job.version)
  {
    var progress := Start(plan, jobs, s.store).progress;
    var s' := StepWorker(plan, s, Listed(0, Some(jobs)));
    if AsListed(s, job.jobId, job.version) {
      assert Named(jobs, job.jobId);
      var j :| j in jobs && j.jobId == job.jobId;
      var i: nat :| i < |jobs| && jobs[i] == j;
      assert progress[i] == Handling;
      assert Handled(s', 0, i);
    }
  }

  lemma TakenUpHolds(plan: Planner, s: Worker, jobs: seq<Job>, job: Job)
    requires Guarded(s) && Waiting(s, 0) && Fair(s, Listed(0, Some(jobs)), job) && AsListed(s, job.jobId, job.version)
    ensures var s' := StepWorker(plan, s, Listed(0, Some(jobs)));
            Holds(plan, s', job.jobId, job.version) && AsListed(s', job.jobId, job.version)
  {
    hide Start, Lists;
    assert s.flights == [Listing];
    assert forall f | f in s.flights :: Planned(plan, f);
    EventFinishes(plan, s, Listed(0, Some(jobs)), job);
  }

  /**
    Handled again. Of a job that a flight takes up, and that nobody else writes to, a later
    flight that takes up a true listing has the same job in hand again exactly when every
    write of it in between, in whatever flights, was lost on its way to the bridge.
   */
  lemma HandledAgain(plan: Planner, s: Worker, jobs: seq<Job>, job: Job, more: seq<WorkerEvent>, next: seq<Job>)
    requires plan(job) != NoHandler
    requires Guarded(s) && Waiting(s, 0) && Fair(s, Listed(0, Some(jobs)), job) && job in jobs
    requires var taken := StepWorker(plan, s, Listed(0, Some(jobs)));
             && AllFair(plan, taken, more, job)
             && Waiting(RunFrom(plan, taken, more), 0)
             && Fair(RunFrom(plan, taken, more), Listed(0, Some(next)), job)
    ensures var taken := StepWorker(plan, s, Listed(0, Some(jobs)));
            && InHand(taken, job)
            && (InHand(StepWorker(plan, RunFrom(plan, taken, more), Listed(0, Some(next))), job) <==>
                  AllLost(plan, taken, more, job.jobId))
  {
    hide StepWorker, RunFrom, AllLost, AllFair, Holds, InHand;
    var taken := StepWorker(plan, s, Listed(0, Some(jobs)));
    assert AsListed(s, job.jobId, job.version);
    TakenUpAsListed(plan, s, jobs, job);
    TakenUpHolds(plan, s, jobs, job);
    EventsFinish(plan, taken, more, job);
    var e := RunFrom(plan, taken, more);
    HoldsGuarded(plan, e, job);
    OneState(e, job.jobId, job.version);
    TakenUpAsListed(plan, e, next, job);
  }

  lemma HoldsGuarded(plan: Planner, s: Worker, job: Job)
    requires Holds(plan, s, job.jobId, job.version)
    ensures Guarded(s)
  {
  }

  // ----- Submitted how often -----

  /** The handler of this job submits a transaction. */
  predicate Submits(v: Services, j: Job) {
    j.operation == Operation.MultisigSign && SendManyFlow.HandleSign(v.wallets(j.coin), j.body, j.awmResponse).Ok?
  }

  /** The submissions of one job that a listing brings about when it is taken up. */
  function Submitted(v: Services, jobs: seq<Job>, id: string): nat {
    if jobs == [] then 0
    else (if jobs[0].jobId == id && Submits(v, jobs[0]) then 1 else 0) + Submitted(v, jobs[1..], id)
  }

  /** All submissions of one job over a stretch of events. */
  function Submissions(v: Services, s: Worker, events: seq<WorkerEvent>, id: string): nat
    decreases |events|
  {
    if events == [] then 0
    else
      (if TakesUp(s, events[0]) then Submitted(v, events[0].jobs.value, id) else 0) +
      Submissions(v, StepWorker(Planning(v), s, events[0]), events[1..], id)
  }

  /** The listings taken up before the first write of the job that reaches the bridge. */
  function TakeUpsBeforeWrite(plan: Planner, s: Worker, events: seq<WorkerEvent>, id: string): nat
    decreases |events|
  {
    if events == [] || (DueFor(s, events[0], id) && events[0].net != RequestLost) then 0
    else
      (if TakesUp(s, events[0]) then 1 else 0) +
      TakeUpsBeforeWrite(plan, StepWorker(plan, s, events[0]), events[1..], id)
  }

  lemma {:induction false} NotSubmitted(v: Services, jobs: seq<Job>, id: string)
    requires forall j | j in jobs :: j.jobId != id
    ensures Submitted(v, jobs, id) == 0
  {
    if jobs != [] {
      NotSubmitted(v, jobs[1..], id);
    }
  }

  lemma {:induction false} SubmittedOnce(v: Services, jobs: seq<Job>, k: nat)
    requires k < |jobs| && Submits(v, jobs[k])
    requires forall i, j | 0 <= i < j < |jobs| :: jobs[i].jobId != jobs[j].jobId
    ensures Submitted(v, jobs, jobs[k].jobId) == 1
  {
    if k == 0 {
      assert forall j | j in jobs[1..] :: j.jobId != jobs[0].jobId;
      NotSubmitted(v, jobs[1..], jobs[0].jobId);
    } else {
      SubmittedOnce(v, jobs[1..], k - 1);
    }
  }

  /** A true listing that is taken up submits the job once as long as the bridge has it as it was, and then never. */
  lemma TakeUpSubmits(v: Services, s: Worker, e: WorkerEvent, job: Job)
    requires Submits(v, job) && TakesUp(s, e) && Fair(s, e, job)
    requires AsListed(s, job.jobId, job.version) || Finished(s, job.jobId, job.version)
    ensures Submitted(v, e.jobs.value, job.jobId) == if AsListed(s, job.jobId, job.version) then 1 else 0
  {
    var jobs := e.jobs.value;
    if AsListed(s, job.jobId, job.version) {
      assert Named(jobs, job.jobId);
      var j :| j in jobs && j.jobId == job.jobId;
      var k: nat :| k < |jobs| && jobs[k] == j;
      SubmittedOnce(v, jobs, k);
    } else {
      assert forall j | j in jobs :: Look(s.store, j.jobId) == Some(Record(j.version, AwaitingBitgo));
      NotSubmitted(v, jobs, job.jobId);
    }
  }

  lemma {:induction false} SubmittedWhileListed(v: Services, s: Worker, events: seq<WorkerEvent>, job: Job)
    requires Submits(v, job)
    requires Holds(Planning(v), s, job.jobId, job.version) && AllFair(Planning(v), s, events, job)
    requires AsListed(s, job.jobId, job.version) || Finished(s, job.jobId, job.version)
    ensures Submissions(v, s, events, job.jobId) ==
              if AsListed(s, job.jobId, job.version) then TakeUpsBeforeWrite(Planning(v), s, events, job.jobId) else 0
    decreases |events|
  {
    hide StepWorker, Holds, Fair, Submits, Submitted, Planning;
    if events != [] {
      var e := events[0];
      var s' := StepWorker(Planning(v), s, e);
      EventFinishes(Planning(v), s, e, job);
      OneState(s, job.jobId, job.version);
      OneState(s', job.jobId, job.version);
      SubmittedWhileListed(v, s', events[1..], job);
      if TakesUp(s, e) {
        TakeUpSubmits(v, s, e, job);
      }
    }
  }

  /**
    Submitted how often. In any run of the worker on true listings, a job that submits, and
    that nobody else writes to, is submitted exactly as often as a listing is taken up before
    the first of its writes reaches the bridge.
   */
  lemma SubmissionCount(v: Services, store: Store, events: seq<WorkerEvent>, job: Job)
    requires Submits(v, job) && Look(store, job.jobId) == Some(Record(job.version, AwaitingBitgo))
    requires AllFair(Planning(v), Idle(store), events, job)
    ensures Submissions(v, Idle(store), events, job.jobId) ==
            TakeUpsBeforeWrite(Planning(v), Idle(store), events, job.jobId)
  {
    SubmittedWhileListed(v, Idle(store), events, job);
  }

  /** The six events in which both writes of a flight are lost and the next flight finds the job again. */
  function LostTwice(job: Job): seq<WorkerEvent> {
    [Tick, Listed(0, Some([job])), Wrote(0, 0, RequestLost), Wrote(0, 0, RequestLost), Tick, Listed(0, Some([job]))]
  }

  /** The worker and its only job, in a flight that has come this far. */
  function Alone(job: Job, flights: seq<Flight>): Worker {
    Worker(flights != [], true, flights, map[job.jobId := Record(job.version, AwaitingBitgo)])
  }

  lemma AloneLists(job: Job, flights: seq<Flight>)
    ensures Lists(Alone(job, flights).store, [job])
  {
    assert job in [job];
  }

  /** The worker's states along those events. */
  lemma LostTwiceSteps(plan: Planner, job: Job)
    requires plan(job) == Completes
    ensures StepWorker(plan, Alone(job, []), Tick) == Alone(job, [Listing])
    ensures StepWorker(plan, Alone(job, [Listing]), Listed(0, Some([job]))) == Alone(job, [Working([job], [Handling])])
    ensures StepWorker(plan, Alone(job, [Working([job], [Handling])]), Wrote(0, 0, RequestLost)) ==
            Alone(job, [Working([job], [Failing])])
    ensures StepWorker(plan, Alone(job, [Working([job], [Failing])]), Wrote(0, 0, RequestLost)) == Alone(job, [])
  {
    assert Start(plan, [job], Alone(job, []).store).progress == [Handling];
    assert [Handling][0] != Settled && [Failing][0] != Settled;
    assert [Handling][0 := Failing] == [Failing] && [Failing][0 := Settled] == [Settled];
  }

  lemma SubmittedAlone(v: Services, job: Job)
    requires Submits(v, job)
    ensures Submitted(v, [job], job.jobId) == 1 && Planning(v)(job) == Completes
  {
    assert Submitted(v, [job][1..], job.jobId) == 0;
  }

  /** Every job that submits is submitted twice in that run: its two lost writes are all it takes. */
  lemma SubmittedTwice(v: Services, job: Job)
    requires Submits(v, job)
    ensures var idle := Idle(map[job.jobId := Record(job.version, AwaitingBitgo)]);
            && AllFair(Planning(v), idle, LostTwice(job), job)
            && AllLost(Planning(v), idle, LostTwice(job), job.jobId)
            && Submissions(v, idle, LostTwice(job), job.jobId) == 2
  {
    hide StepWorker, Submits, Submitted, Planning, Lists;
    var plan, es := Planning(v), LostTwice(job);
    SubmittedAlone(v, job);
    LostTwiceSteps(plan, job);
    AloneLists(job, [Listing]);
    var s0, s1, s2 := Alone(job, []), Alone(job, [Listing]), Alone(job, [Working([job], [Handling])]);
    var s3 := Alone(job, [Working([job], [Failing])]);
    assert s0 == Idle(map[job.jobId := Record(job.version, AwaitingBitgo)]);
    assert es[5..][1..] == [] && es[5..][0] == es[5];
    assert Fair(s1, es[5], job);
    assert Rest(v, s2, [], job, 0);
    assert Rest(v, s1, es[5..], job, 1);
    assert es[4..][1..] == es[5..] && es[3..][1..] == es[4..] && es[2..][1..] == es[3..];
    assert Rest(v, s0, es[4..], job, 1);
    assert Rest(v, s3, es[3..], job, 1);
    assert Rest(v, s2, es[2..], job, 1);
    assert es[1..][1..] == es[2..] && es[0..] == es && es[0..][1..] == es[1..];
    assert Rest(v, s1, es[1..], job, 2);
    assert Rest(v, s0, es, job, 2);
  }

  ghost predicate Rest(v: Services, s: Worker, events: seq<WorkerEvent>, job: Job, n: nat) {
    && AllFair(Planning(v), s, events, job) && AllLost(Planning(v), s, events, job.jobId)
    && Submissions(v, s, events, job.jobId) == n
  }

  /** There is such a job: one whose wallet accepts what is submitted. */
  lemma SomeJobSubmits() returns (v: Services, job: Job)
    ensures Submits(v, job)
  {
    var w := SendManyFlow.Wallet(true, false, SendManyFlow.OtherAlgorithm, false, (source: Source) => None,
                                 (p: Fields) => None, (p: Fields, tx: Json) => None, Ok(None),
                                 (p: Json) => None, {}, (tx: Fields) => Some(tx));
    v := Services((coin: string) => (id: string) => Some(w),
                  (coin: string, p: Fields, user: string, backup: string) => None);
    var context := JobContext("w", ConsolidateUnspents, JObj(map[]));
    var body := SignBody(User, "p", JNull, None);
    var signed: Fields := map[TxHex := JStr("00")];
    job := Job("a", 1, "btc", Operation.MultisigSign, Some(JobBody(body, context)), Some(Answered(Ok(signed))), None);
    ParseAfterPack(body, context);
    assert ParseSignedTx(job.awmResponse) == Ok(signed);
    assert SendManyFlow.SubmitSigned(w, context.kind, signed, context.params).Ok?;
  }
}
