/**
  One batch of the async job worker: the jobs of one listing, processed concurrently, each
  writing its outcome back to a bridge that checks versions.
 */
module JobBatch {
  import opened Prelude
  import opened Json
  import opened AsyncUtils

  datatype Job = Job(
    jobId: string, version: int, coin: string, operation: Operation,
    body: Option<Fields>, awmResponse: Option<AwmResponse>, awmBackupResponse: Option<AwmResponse>)

  datatype Status = AwaitingBitgo | Complete | Failed | OtherStatus

  // ----- The bridge -----

  datatype Record = Record(version: int, status: Status)

  type Store = map<string, Record>

  /** How a request to the bridge fares. */
  datatype Net = Delivered | RequestLost | ResponseLost

  /** A status write as the worker attempted it: whether the bridge applied it, and whether the call threw. */
  datatype Write = Write(index: nat, jobId: string, version: int, status: Status, applied: bool, threw: bool)

  predicate Applies(store: Store, jobId: string, version: int, net: Net) {
    net != RequestLost && jobId in store && store[jobId].version == version
  }

  /** A write with a stale version is answered 409, one to an unknown job 404; others count the version up. */
  function Update(store: Store, jobId: string, version: int, status: Status, net: Net): Store {
    if Applies(store, jobId, version, net) then store[jobId := Record(version + 1, status)] else store
  }

  function WriteOf(store: Store, index: nat, job: Job, status: Status, net: Net): Write {
    var applied := Applies(store, job.jobId, job.version, net);
    Write(index, job.jobId, job.version, status, applied, !applied || net == ResponseLost)
  }

  // ----- One job -----

  /** What the handler of a job comes to, before its last write. */
  datatype Plan = NoHandler | Throws | Completes

  type Planner = Job -> Plan

  /** Where a job's processing stands: before its first write, before the write in `catch`, or over. */
  datatype Progress = Handling | Failing | Settled

  function Begin(plan: Plan): Progress {
    if plan == NoHandler then Settled else Handling
  }

  /** The write a job attempts next. */
  function NextWrite(plan: Plan, p: Progress): Option<Status> {
    match p
    case Handling => if plan == Completes then Some(Complete) else if plan == Throws then Some(Failed) else None
    case Failing => Some(Failed)
    case Settled => None
  }

  /** Only a `complete` that throws, whatever the reason, leads on to another write. */
  function AfterWrite(w: Write): Progress {
    if w.status == Complete && w.threw then Failing else Settled
  }

  // ----- The batch -----

  datatype Event =
    | Attempt(index: nat, net: Net)                                // job `index` makes its next write
    | Elsewhere(jobId: string, status: Status, steps: nat)         // another client of the bridge writes

  datatype World = World(store: Store, progress: seq<Progress>, log: seq<Write>)

  function Start(plan: Planner, jobs: seq<Job>, store: Store): (w: World)
    ensures |w.progress| == |jobs|
  {
    World(store, seq(|jobs|, i requires 0 <= i < |jobs| => Begin(plan(jobs[i]))), [])
  }

  function Step(plan: Planner, jobs: seq<Job>, w: World, e: Event): (r: World)
    requires |w.progress| == |jobs|
    ensures |r.progress| == |jobs|
  {
    match e
    case Attempt(i, net) =>
      if i >= |jobs| || NextWrite(plan(jobs[i]), w.progress[i]).None? then w
      else
        var status := NextWrite(plan(jobs[i]), w.progress[i]).value;
        var write := WriteOf(w.store, i, jobs[i], status, net);
        World(Update(w.store, jobs[i].jobId, jobs[i].version, status, net),
              w.progress[i := AfterWrite(write)], w.log + [write])
    case Elsewhere(id, status, steps) =>
      if id !in w.store then w.(store := w.store[id := Record(1, status)])
      else w.(store := w.store[id := Record(w.store[id].version + 1 + steps, status)])
  }

  /** The state after a schedule: any interleaving of the jobs' writes and of other clients'. */
  function Run(plan: Planner, jobs: seq<Job>, store: Store, events: seq<Event>): (w: World)
    ensures |w.progress| == |jobs|
  {
    if events == [] then Start(plan, jobs, store)
    else Step(plan, jobs, Run(plan, jobs, store, events[..|events| - 1]), events[|events| - 1])
  }

  function LogOf(i: nat, log: seq<Write>): seq<Write> {
    if log == [] then []
    else LogOf(i, log[..|log| - 1]) + (if log[|log| - 1].index == i then [log[|log| - 1]] else [])
  }

  lemma LogOfSnoc(i: nat, log: seq<Write>, w: Write)
    ensures LogOf(i, log + [w]) == LogOf(i, log) + if w.index == i then [w] else []
  {
    assert (log + [w])[..|log|] == log;
  }

  // ----- Write discipline -----

  predicate IsWrite(job: Job, w: Write, status: Status) {
    w.jobId == job.jobId && w.version == job.version && w.status == status
  }

  /**
    The writes of one job, by what its handler came to. `complete` is attempted at most once,
    `failed` only when the handler threw, be it in its work or in that `complete`.
   */
  predicate Disciplined(job: Job, plan: Plan, p: Progress, log: seq<Write>) {
    match p
    case Handling => plan != NoHandler && log == []
    case Failing => plan == Completes && |log| == 1 && IsWrite(job, log[0], Complete) && log[0].threw
    case Settled =>
      match plan
      case NoHandler => log == []
      case Throws => |log| == 1 && IsWrite(job, log[0], Failed)
      case Completes =>
        && 1 <= |log| <= 2 && IsWrite(job, log[0], Complete)
        && (log[0].threw <==> |log| == 2)
        && (|log| == 2 ==> IsWrite(job, log[1], Failed))
  }

  lemma StepDisciplined(plan: Planner, jobs: seq<Job>, w: World, e: Event, i: nat)
    requires i < |jobs| == |w.progress|
    requires Disciplined(jobs[i], plan(jobs[i]), w.progress[i], LogOf(i, w.log))
    ensures var w' := Step(plan, jobs, w, e);
            Disciplined(jobs[i], plan(jobs[i]), w'.progress[i], LogOf(i, w'.log))
  {
    hide LogOf, Update, Applies;
    if e.Attempt? && e.index < |jobs| && NextWrite(plan(jobs[e.index]), w.progress[e.index]).Some? {
      var status := NextWrite(plan(jobs[e.index]), w.progress[e.index]).value;
      LogOfSnoc(i, w.log, WriteOf(w.store, e.index, jobs[e.index], status, e.net));
    }
  }

  /** In every schedule, every job's writes keep the discipline. */
  lemma {:induction false} WriteDiscipline(plan: Planner, jobs: seq<Job>, store: Store, events: seq<Event>, i: nat)
    requires i < |jobs|
    ensures var w := Run(plan, jobs, store, events);
            Disciplined(jobs[i], plan(jobs[i]), w.progress[i], LogOf(i, w.log))
  {
    hide Step;
    if events != [] {
      WriteDiscipline(plan, jobs, store, events[..|events| - 1], i);
      StepDisciplined(plan, jobs, Run(plan, jobs, store, events[..|events| - 1]), events[|events| - 1], i);
    } else {
      assert LogOf(i, []) == [];
    }
  }

  // ----- Versions -----

  /** The record has moved past every version at which a write was applied. */
  ghost predicate Passed(w: World) {
    forall k | 0 <= k < |w.log| && w.log[k].applied ::
      w.log[k].jobId in w.store && w.log[k].version < w.store[w.log[k].jobId].version
  }

  /** No two applied writes were for the same job at the same version. */
  ghost predicate OncePerVersion(log: seq<Write>) {
    forall a, b | 0 <= a < b < |log| && log[a].applied && log[b].applied ::
      log[a].jobId != log[b].jobId || log[a].version != log[b].version
  }

  lemma StepApplies(plan: Planner, jobs: seq<Job>, w: World, e: Event)
    requires |w.progress| == |jobs| && Passed(w) && OncePerVersion(w.log)
    ensures Passed(Step(plan, jobs, w, e)) && OncePerVersion(Step(plan, jobs, w, e).log)
  {
    hide NextWrite;
  }

  /**
    At most one write per job and version is applied, in every schedule, even when a listing
    names a job twice and other clients write to the bridge in between.
   */
  lemma {:induction false} AppliedOnce(plan: Planner, jobs: seq<Job>, store: Store, events: seq<Event>)
    ensures var w := Run(plan, jobs, store, events); Passed(w) && OncePerVersion(w.log)
  {
    if events != [] {
      AppliedOnce(plan, jobs, store, events[..|events| - 1]);
      StepApplies(plan, jobs, Run(plan, jobs, store, events[..|events| - 1]), events[|events| - 1]);
    }
  }

  lemma {:induction false} LogOfIndex(i: nat, log: seq<Write>, a: nat) returns (k: nat)
    requires a < |LogOf(i, log)|
    ensures k < |log| && log[k] == LogOf(i, log)[a]
    ensures forall b: nat | a < b < |LogOf(i, log)| :: exists m :: k < m < |log| && log[m] == LogOf(i, log)[b]
  {
    var last := |log| - 1;
    var before := LogOf(i, log[..last]);
    if a < |before| {
      k := LogOfIndex(i, log[..last], a);
      forall b: nat | a < b < |LogOf(i, log)| ensures exists m :: k < m < |log| && log[m] == LogOf(i, log)[b] {
        if b < |before| {
          var m :| k < m < last && log[..last][m] == before[b];
          assert log[m] == LogOf(i, log)[b];
        } else {
          assert log[last] == LogOf(i, log)[b];
        }
      }
    } else {
      k := last;
    }
  }

  /** A `complete` that was applied is never overwritten by the `failed` that may follow it. */
  lemma CompleteNotOverwritten(plan: Planner, jobs: seq<Job>, store: Store, events: seq<Event>, i: nat)
    requires i < |jobs|
    ensures var log := LogOf(i, Run(plan, jobs, store, events).log);
            |log| == 2 ==> log[0].status == Complete && log[1].status == Failed && !(log[0].applied && log[1].applied)
  {
    var w := Run(plan, jobs, store, events);
    WriteDiscipline(plan, jobs, store, events, i);
    AppliedOnce(plan, jobs, store, events);
    if |LogOf(i, w.log)| == 2 {
      var k := LogOfIndex(i, w.log, 0);
      var m :| k < m < |w.log| && w.log[m] == LogOf(i, w.log)[1];
    }
  }

  /** Nobody but this worker writes to the job. */
  predicate Undisturbed(id: string, events: seq<Event>) {
    forall e | e in events :: e.Elsewhere? ==> e.jobId != id
  }

  ghost predicate AppliedTo(log: seq<Write>, id: string, k: int) {
    0 <= k < |log| && log[k].applied && log[k].jobId == id
  }

  /** The job's record is as listed until a write is applied, and is what that write says from then on. */
  ghost predicate Sticks(before: Store, w: World, id: string, version: int) {
    && (forall k | 0 <= k < |w.log| && w.log[k].jobId == id :: w.log[k].version == version)
    && (forall k | AppliedTo(w.log, id, k) ::
          id in w.store && w.store[id] == Record(version + 1, w.log[k].status))
    && ((forall k | 0 <= k < |w.log| :: !AppliedTo(w.log, id, k)) ==>
          (id in w.store <==> id in before) && (id in before ==> w.store[id] == before[id]))
  }

  lemma StepSticks(plan: Planner, jobs: seq<Job>, before: Store, w: World, e: Event, id: string, version: int)
    requires |w.progress| == |jobs| && (e.Elsewhere? ==> e.jobId != id)
    requires forall j | j in jobs && j.jobId == id :: j.version == version
    requires Sticks(before, w, id, version)
    ensures Sticks(before, Step(plan, jobs, w, e), id, version)
  {
    hide NextWrite;
    var w' := Step(plan, jobs, w, e);
    forall k | 0 <= k < |w.log| ensures AppliedTo(w'.log, id, k) <==> AppliedTo(w.log, id, k) {
      assert w'.log[k] == w.log[k];
    }
    if |w'.log| == |w.log| + 1 {
      assert w'.log[|w.log|].jobId == jobs[e.index].jobId && jobs[e.index] in jobs;
      assert w'.log[|w.log|].applied ==> AppliedTo(w'.log, w'.log[|w.log|].jobId, |w.log|);
    }
  }

  /**
    A job that only this worker writes to leaves its listed state at most once, and stays in
    the state that write gave it: a job once complete is complete at the end.
   */
  lemma {:induction false} OutcomeSticks(plan: Planner, jobs: seq<Job>, store: Store, events: seq<Event>,
                                         id: string, version: int)
    requires Undisturbed(id, events)
    requires forall j | j in jobs && j.jobId == id :: j.version == version
    ensures Sticks(store, Run(plan, jobs, store, events), id, version)
  {
    if events != [] {
      OutcomeSticks(plan, jobs, store, events[..|events| - 1], id, version);
      assert events[|events| - 1] in events;
      StepSticks(plan, jobs, store, Run(plan, jobs, store, events[..|events| - 1]), events[|events| - 1], id, version);
    }
  }

  // ----- Independence -----

  /** The events that concern job `i`: its own attempts, and other clients' writes to it. */
  predicate Concerns(jobs: seq<Job>, i: nat, e: Event)
    requires i < |jobs|
  {
    match e
    case Attempt(j, _) => j == i
    case Elsewhere(id, _, _) => id == jobs[i].jobId
  }

  function Own(jobs: seq<Job>, i: nat, events: seq<Event>): seq<Event>
    requires i < |jobs|
  {
    if events == [] then []
    else
      var e := events[|events| - 1];
      Own(jobs, i, events[..|events| - 1]) + if Concerns(jobs, i, e) then [e] else []
  }

  function Look(store: Store, id: string): Option<Record> {
    if id in store then Some(store[id]) else None
  }

  /** Two states that job `i` cannot tell apart. */
  predicate Alike(jobs: seq<Job>, i: nat, a: World, b: World)
    requires i < |jobs| == |a.progress| == |b.progress|
  {
    && a.progress[i] == b.progress[i]
    && LogOf(i, a.log) == LogOf(i, b.log)
    && Look(a.store, jobs[i].jobId) == Look(b.store, jobs[i].jobId)
  }

  /** The record may still come to this version: it is there or behind, or yet to be made. */
  predicate Reachable(store: Store, id: string, version: int) {
    if id in store then store[id].version <= version else 1 <= version
  }

  /** Job `j` is a second listing of job `i` that has a handler and a version its write may meet. */
  predicate Rival(plan: Planner, jobs: seq<Job>, store: Store, i: nat, j: nat)
    requires i < |jobs|
  {
    && j < |jobs| && j != i && jobs[j].jobId == jobs[i].jobId
    && plan(jobs[j]) != NoHandler && Reachable(store, jobs[j].jobId, jobs[j].version)
  }

  predicate HasRival(plan: Planner, jobs: seq<Job>, store: Store, i: nat)
    requires i < |jobs|
  {
    exists j: nat | j < |jobs| :: Rival(plan, jobs, store, i, j)
  }

  /** A version once passed stays passed. */
  lemma {:induction false} StaysPassed(plan: Planner, jobs: seq<Job>, store: Store, events: seq<Event>,
                                       id: string, version: int)
    requires !Reachable(store, id, version)
    ensures !Reachable(Run(plan, jobs, store, events).store, id, version)
  {
    if events != [] {
      hide NextWrite;
      StaysPassed(plan, jobs, store, events[..|events| - 1], id, version);
    }
  }

  /** Without a rival, an event that does not concern the job leaves it as it was. */
  lemma StepElsewhere(plan: Planner, jobs: seq<Job>, store: Store, events: seq<Event>, i: nat, e: Event)
    requires i < |jobs| && !HasRival(plan, jobs, store, i) && !Concerns(jobs, i, e)
    ensures var w := Run(plan, jobs, store, events); Alike(jobs, i, w, Step(plan, jobs, w, e))
  {
    hide Run, LogOf;
    var w := Run(plan, jobs, store, events);
    if e.Attempt? && e.index < |jobs| && NextWrite(plan(jobs[e.index]), w.progress[e.index]).Some? {
      var status := NextWrite(plan(jobs[e.index]), w.progress[e.index]).value;
      LogOfSnoc(i, w.log, WriteOf(w.store, e.index, jobs[e.index], status, e.net));
      if jobs[e.index].jobId == jobs[i].jobId {
        WriteDiscipline(plan, jobs, store, events, e.index);
        assert !Rival(plan, jobs, store, i, e.index);
        StaysPassed(plan, jobs, store, events, jobs[e.index].jobId, jobs[e.index].version);
      }
    }
  }

  /** An event that concerns the job does the same in both states. */
  lemma StepAlike(plan: Planner, jobs: seq<Job>, i: nat, a: World, b: World, e: Event)
    requires i < |jobs| == |a.progress| == |b.progress| && Concerns(jobs, i, e) && Alike(jobs, i, a, b)
    ensures Alike(jobs, i, Step(plan, jobs, a, e), Step(plan, jobs, b, e))
  {
    if e.Attempt? && NextWrite(plan(jobs[i]), a.progress[i]).Some? {
      var status := NextWrite(plan(jobs[i]), a.progress[i]).value;
      LogOfSnoc(i, a.log, WriteOf(a.store, i, jobs[i], status, e.net));
      LogOfSnoc(i, b.log, WriteOf(b.store, i, jobs[i], status, e.net));
    }
  }

  /** Without a rival, a job fares in the batch as if the schedule held only the events that concern it. */
  lemma {:induction false} OnlyOwnEventsMatter(plan: Planner, jobs: seq<Job>, store: Store, events: seq<Event>, i: nat)
    requires i < |jobs| && !HasRival(plan, jobs, store, i)
    ensures Alike(jobs, i, Run(plan, jobs, store, events), Run(plan, jobs, store, Own(jobs, i, events)))
  {
    if events != [] {
      hide HasRival;
      var e := events[|events| - 1];
      var w := Run(plan, jobs, store, events[..|events| - 1]);
      var own := Own(jobs, i, events[..|events| - 1]);
      OnlyOwnEventsMatter(plan, jobs, store, events[..|events| - 1], i);
      if Concerns(jobs, i, e) {
        StepAlike(plan, jobs, i, w, Run(plan, jobs, store, own), e);
        assert (own + [e])[..|own|] == own;
      } else {
        StepElsewhere(plan, jobs, store, events[..|events| - 1], i, e);
        assert own + [] == own;
      }
    }
  }

  /** Any two schedules that agree on a job's own events agree on its writes, its progress and its record. */
  ghost predicate Independent(plan: Planner, jobs: seq<Job>, store: Store, i: nat)
    requires i < |jobs|
  {
    forall events, events' | Own(jobs, i, events) == Own(jobs, i, events') ::
      Alike(jobs, i, Run(plan, jobs, store, events), Run(plan, jobs, store, events'))
  }

  lemma RunOne(plan: Planner, jobs: seq<Job>, store: Store, e: Event)
    ensures Run(plan, jobs, store, [e]) == Step(plan, jobs, Start(plan, jobs, store), e)
  {
    assert [e][..0] == [];
  }

  lemma RunTwo(plan: Planner, jobs: seq<Job>, store: Store, first: Event, second: Event)
    ensures Run(plan, jobs, store, [first, second]) ==
            Step(plan, jobs, Step(plan, jobs, Start(plan, jobs, store), first), second)
  {
    hide Step, Start;
    assert [first, second][..1] == [first] && [first][..0] == [];
    assert Run(plan, jobs, store, [first]) == Step(plan, jobs, Start(plan, jobs, store), first);
  }

  /** Other clients alone can bring a record to any version it may still come to. */
  lemma Reach(plan: Planner, jobs: seq<Job>, store: Store, id: string, version: int) returns (events: seq<Event>)
    requires Reachable(store, id, version)
    ensures var w := Run(plan, jobs, store, events);
            && id in w.store && w.store[id].version == version
            && w.progress == Start(plan, jobs, store).progress
  {
    var s := Start(plan, jobs, store);
    if id in store && store[id].version == version {
      events := [];
    } else if id in store {
      events := [Elsewhere(id, AwaitingBitgo, version - store[id].version - 1)];
      RunOne(plan, jobs, store, events[0]);
    } else if version == 1 {
      events := [Elsewhere(id, AwaitingBitgo, 0)];
      RunOne(plan, jobs, store, events[0]);
    } else {
      events := [Elsewhere(id, AwaitingBitgo, 0), Elsewhere(id, AwaitingBitgo, version - 2)];
      RunTwo(plan, jobs, store, events[0], events[1]);
    }
  }

  /** A rival's write, once the record is at its version, changes the record behind the job's back. */
  lemma RivalInterferes(plan: Planner, jobs: seq<Job>, store: Store, i: nat, j: nat)
    requires i < |jobs| && Rival(plan, jobs, store, i, j)
    ensures !Independent(plan, jobs, store, i)
  {
    var before := Reach(plan, jobs, store, jobs[j].jobId, jobs[j].version);
    var after := before + [Attempt(j, Delivered)];
    assert after[..|before|] == before;
    assert Own(jobs, i, after) == Own(jobs, i, before) by { assert Own(jobs, i, before) + [] == Own(jobs, i, before); }
    assert !Alike(jobs, i, Run(plan, jobs, store, before), Run(plan, jobs, store, after)) by {
      hide Own, LogOf;
      var w := Run(plan, jobs, store, before);
      assert w.progress[j] == Handling;
      assert Run(plan, jobs, store, after) == Step(plan, jobs, w, Attempt(j, Delivered));
    }
  }

  /**
    Independence. A job's writes are the same, applied or not, in every order in which the
    batch's jobs may finish, and whether the others succeed or fail, exactly when the listing
    does not name the job again with a handler and a version that a write may still meet.
   */
  lemma Independence(plan: Planner, jobs: seq<Job>, store: Store, i: nat)
    requires i < |jobs|
    ensures Independent(plan, jobs, store, i) <==> !HasRival(plan, jobs, store, i)
  {
    if HasRival(plan, jobs, store, i) {
      var j: nat :| j < |jobs| && Rival(plan, jobs, store, i, j);
      RivalInterferes(plan, jobs, store, i, j);
    } else {
      hide HasRival, Alike, Run, Own;
      forall events, events' | Own(jobs, i, events) == Own(jobs, i, events')
        ensures Alike(jobs, i, Run(plan, jobs, store, events), Run(plan, jobs, store, events'))
      {
        OnlyOwnEventsMatter(plan, jobs, store, events, i);
        OnlyOwnEventsMatter(plan, jobs, store, events', i);
        AlikeThrough(jobs, i, Run(plan, jobs, store, events), Run(plan, jobs, store, Own(jobs, i, events)),
                     Run(plan, jobs, store, events'));
      }
    }
  }

  lemma AlikeThrough(jobs: seq<Job>, i: nat, a: World, b: World, c: World)
    requires i < |jobs| == |a.progress| == |b.progress| == |c.progress|
    requires Alike(jobs, i, a, b) && Alike(jobs, i, c, b)
    ensures Alike(jobs, i, a, c)
  {
  }

  lemma OwnOfTwo(jobs: seq<Job>, i: nat, first: Event, second: Event)
    requires i < |jobs|
    ensures Own(jobs, i, [first, second]) ==
            (if Concerns(jobs, i, first) then [first] else []) + (if Concerns(jobs, i, second) then [second] else [])
  {
    assert [first, second][..1] == [first] && [first][..0] == [];
    assert Own(jobs, i, [first]) == if Concerns(jobs, i, first) then [first] else [];
  }

  /** Of two doubles that run one after the other, the first one's `complete` is applied and the second's is not. */
  lemma FirstDoubleWins(plan: Planner, jobs: seq<Job>, store: Store, first: nat, second: nat)
    requires |jobs| == 2 && {first, second} == {0, 1}
    requires jobs[0] == jobs[1] && plan(jobs[0]) == Completes
    requires jobs[0].jobId in store && store[jobs[0].jobId].version == jobs[0].version
    ensures var log := Run(plan, jobs, store, [Attempt(first, Delivered), Attempt(second, Delivered)]).log;
            |log| == 2 && log[0].index == first && log[0].applied && log[1].index == second && !log[1].applied
  {
    hide Run;
    RunTwo(plan, jobs, store, Attempt(first, Delivered), Attempt(second, Delivered));
    assert first != second by { assert 0 in {first, second} && 1 in {first, second}; }
  }

  lemma LogOfTwo(i: nat, a: Write, b: Write)
    ensures LogOf(i, [a, b]) == (if a.index == i then [a] else []) + (if b.index == i then [b] else [])
  {
    assert [a, b][..1] == [a] && [a][..0] == [];
    assert LogOf(i, [a]) == if a.index == i then [a] else [];
  }

  /** A listing with such a double, and two schedules in which the job fares differently: it can lose its write. */
  lemma DoubleListing()
    returns (plan: Planner, jobs: seq<Job>, store: Store, events: seq<Event>, events': seq<Event>)
    ensures |jobs| == 2 && Rival(plan, jobs, store, 0, 1)
    ensures Own(jobs, 0, events) == Own(jobs, 0, events')
    ensures !Alike(jobs, 0, Run(plan, jobs, store, events), Run(plan, jobs, store, events'))
  {
    hide Run, Own, LogOf;
    var job := Job("a", 1, "btc", MultisigSign, None, None, None);
    plan, jobs, store := _ => Completes, [job, job], map["a" := Record(1, AwaitingBitgo)];
    events := [Attempt(0, Delivered), Attempt(1, Delivered)];
    events' := [Attempt(1, Delivered), Attempt(0, Delivered)];
    OwnOfTwo(jobs, 0, Attempt(0, Delivered), Attempt(1, Delivered));
    OwnOfTwo(jobs, 0, Attempt(1, Delivered), Attempt(0, Delivered));
    FirstDoubleWins(plan, jobs, store, 0, 1);
    FirstDoubleWins(plan, jobs, store, 1, 0);
    var log, log' := Run(plan, jobs, store, events).log, Run(plan, jobs, store, events').log;
    assert log == [log[0], log[1]] && log' == [log'[0], log'[1]];
    LogOfTwo(0, log[0], log[1]);
    LogOfTwo(0, log'[0], log'[1]);
    assert LogOf(0, log)[0].applied && !LogOf(0, log')[0].applied;
  }
}
