/** Account consolidation: many unsigned builds, each signed and sent on its own. */
module Consolidate {
  import opened Prelude
  import opened Json

  /** The wallet platform together with the signer: what it answers may depend on all it was sent before. */
  type Answers = (seq<Fields>, Fields) -> Result<Json>

  class Platform {
    const answers: Answers
    var sent: seq<Fields>

    constructor (answers: Answers)
      ensures this.answers == answers && sent == []
    {
      this.answers, sent := answers, [];
    }

    method Send(tx: Fields) returns (r: Result<Json>)
      modifies this`sent
      ensures r == answers(old(sent), tx) && sent == old(sent) + [tx]
    {
      r := answers(sent, tx);
      sent := sent + [tx];
    }
  }

  /** What a build is sent as, if it can be: an MPC build needs its transaction request. */
  function Message(isMpc: bool, build: Fields): Option<Fields> {
    if !isMpc then Some(build[BuildParams := JObj(map[Recipients := Coalesce(Field(build, Recipients), JArr([]))])])
    else if Truth(Field(build, TxRequestId)) then Some(map[TxRequestId := build[TxRequestId]])
    else None
  }

  function Sent(isMpc: bool, builds: seq<Fields>): seq<Fields> {
    if builds == [] then []
    else Sent(isMpc, builds[..|builds| - 1]) + match Message(isMpc, builds[|builds| - 1])
                                               case None => []
                                               case Some(tx) => [tx]
  }

  /** The result of each build, in order. */
  function Results(answers: Answers, isMpc: bool, before: seq<Fields>, builds: seq<Fields>): (r: seq<Result<Json>>)
    ensures |r| == |builds|
  {
    if builds == [] then []
    else
      var prefix := builds[..|builds| - 1];
      Results(answers, isMpc, before, prefix) + [match Message(isMpc, builds[|builds| - 1])
                                                 case None => Err(Internal)
                                                 case Some(tx) => answers(before + Sent(isMpc, prefix), tx)]
  }

  function Successes(rs: seq<Result<Json>>): seq<Json> {
    if rs == [] then [] else Successes(rs[..|rs| - 1]) + match rs[|rs| - 1] case Ok(v) => [v] case Err(_) => []
  }

  function Failures(rs: seq<Result<Json>>): seq<Error> {
    if rs == [] then [] else Failures(rs[..|rs| - 1]) + match rs[|rs| - 1] case Ok(_) => [] case Err(e) => [e]
  }

  /** A normal return, or an error with a status that still carries both lists. */
  datatype Outcome =
    | Returned(success: seq<Json>, failure: seq<Error>)
    | Thrown(status: int, success: seq<Json>, failure: seq<Error>)
    | Rejected(error: Error)

  datatype Request = Request(
    wallet: Result<bool>, walletPubs: Result<Option<seq<string>>>, allowsConsolidations: bool,
    consolidateAddresses: Option<Json>, builds: Result<seq<Fields>>)

  /** The checks before any build is sent; `wallet` says whether it is an MPC wallet. */
  function Builds(req: Request): Result<(bool, seq<Fields>)> {
    var isMpc :- req.wallet;
    var _ :- req.walletPubs;
    if !req.allowsConsolidations then Err(Internal)
    else if Truth(req.consolidateAddresses) && !req.consolidateAddresses.value.JArr? then Err(Internal)
    else
      var builds :- req.builds;
      Ok((isMpc, builds))
  }

  function Verdict(rs: seq<Result<Json>>): Outcome {
    if Failures(rs) == [] then Returned(Successes(rs), Failures(rs))
    else Thrown(if Successes(rs) == [] then 500 else 202, Successes(rs), Failures(rs))
  }

  // One step of the loop.

  lemma Nothing(answers: Answers, isMpc: bool, before: seq<Fields>)
    ensures Results(answers, isMpc, before, []) == [] && Sent(isMpc, []) == [] && before + [] == before
    ensures Successes([]) == [] && Failures([]) == []
  {
  }

  lemma OneMore(answers: Answers, isMpc: bool, before: seq<Fields>, builds: seq<Fields>, i: nat)
    requires i < |builds|
    ensures var sent := before + Sent(isMpc, builds[..i]);
            var message := Message(isMpc, builds[i]);
            && Results(answers, isMpc, before, builds[..i + 1]) ==
                 Results(answers, isMpc, before, builds[..i]) +
                 [match message case None => Err(Internal) case Some(tx) => answers(sent, tx)]
            && before + Sent(isMpc, builds[..i + 1]) == match message case None => sent case Some(tx) => sent + [tx]
  {
    assert builds[..i + 1][..i] == builds[..i];
  }

  lemma Sorted(rs: seq<Result<Json>>, r: Result<Json>)
    ensures Successes(rs + [r]) == Successes(rs) + if r.Ok? then [r.value] else []
    ensures Failures(rs + [r]) == Failures(rs) + if r.Ok? then [] else [r.error]
  {
    assert (rs + [r])[..|rs|] == rs;
  }

  method HandleConsolidate(platform: Platform, req: Request) returns (r: Outcome)
    modifies platform`sent
    ensures match Builds(req)
            case Err(e) => r == Rejected(e) && platform.sent == old(platform.sent)
            case Ok((isMpc, builds)) =>
              && r == Verdict(Results(platform.answers, isMpc, old(platform.sent), builds))
              && platform.sent == old(platform.sent) + Sent(isMpc, builds)
  {
    if req.wallet.Err? {
      return Rejected(req.wallet.error);
    }
    var isMpc := req.wallet.value;
    if req.walletPubs.Err? {
      return Rejected(req.walletPubs.error);
    }
    if !req.allowsConsolidations {
      return Rejected(Internal);
    }
    if Truth(req.consolidateAddresses) && !req.consolidateAddresses.value.JArr? {
      return Rejected(Internal);
    }
    if req.builds.Err? {
      return Rejected(req.builds.error);
    }
    var builds := req.builds.value;
    assert Builds(req) == Ok((isMpc, builds));
    hide Results, Sent, Successes, Failures, Message;
    var successfulTxs: seq<Json>, failedTxs: seq<Error> := [], [];
    ghost var results: seq<Result<Json>> := [];
    Nothing(platform.answers, isMpc, platform.sent);
    for i := 0 to |builds|
      invariant platform.sent == old(platform.sent) + Sent(isMpc, builds[..i])
      invariant results == Results(platform.answers, isMpc, old(platform.sent), builds[..i])
      invariant successfulTxs == Successes(results) && failedTxs == Failures(results)
    {
      OneMore(platform.answers, isMpc, old(platform.sent), builds, i);
      var result: Result<Json> := Err(Internal);
      var message := Message(isMpc, builds[i]);
      if message.Some? {
        result := platform.Send(message.value);
      }
      Sorted(results, result);
      results := results + [result];
      if result.Ok? {
        successfulTxs := successfulTxs + [result.value];
      } else {
        failedTxs := failedTxs + [result.error];
      }
    }
    assert builds[..|builds|] == builds;
    if |failedTxs| > 0 {
      var status := 202;
      if |successfulTxs| == 0 {
        status := 500;
      }
      return Thrown(status, successfulTxs, failedTxs);
    }
    return Returned(successfulTxs, failedTxs);
  }

  // ----- Conservation -----

  function Marks(rs: seq<Result<Json>>): seq<bool> {
    seq(|rs|, i requires 0 <= i < |rs| => rs[i].Ok?)
  }

  /** Two lists merged back: each mark takes the next of one of them. */
  function Merge(marks: seq<bool>, success: seq<Json>, failure: seq<Error>): Option<seq<Result<Json>>> {
    if marks == [] then (if success == [] && failure == [] then Some([]) else None)
    else if marks[|marks| - 1] then
      if success == [] then None
      else
        var rest :- Merge(marks[..|marks| - 1], success[..|success| - 1], failure);
        Some(rest + [Ok(success[|success| - 1])])
    else if failure == [] then None
    else
      var rest :- Merge(marks[..|marks| - 1], success, failure[..|failure| - 1]);
      Some(rest + [Err(failure[|failure| - 1])])
  }

  /** Merging one result more. */
  lemma MergeOne(marks: seq<bool>, success: seq<Json>, failure: seq<Error>, r: Result<Json>)
    ensures Merge(marks + [r.Ok?],
                  success + if r.Ok? then [r.value] else [], failure + if r.Ok? then [] else [r.error]) ==
              match Merge(marks, success, failure) case None => None case Some(rs) => Some(rs + [r])
  {
    assert (marks + [r.Ok?])[..|marks|] == marks;
    if r.Ok? {
      assert (success + [r.value])[..|success|] == success && failure + [] == failure;
    } else {
      assert (failure + [r.error])[..|failure|] == failure && success + [] == success;
    }
  }

  /** The two lists are an order-preserving partition: merged back, they are the attempts. */
  lemma {:induction false} Partition(rs: seq<Result<Json>>)
    ensures Merge(Marks(rs), Successes(rs), Failures(rs)) == Some(rs)
    ensures |Successes(rs)| + |Failures(rs)| == |rs|
  {
    if rs != [] {
      hide Merge, Successes, Failures;
      var prefix, r := rs[..|rs| - 1], rs[|rs| - 1];
      Partition(prefix);
      assert rs == prefix + [r];
      assert Marks(rs) == Marks(prefix) + [r.Ok?];
      Sorted(prefix, r);
      MergeOne(Marks(prefix), Successes(prefix), Failures(prefix), r);
    }
  }

  lemma {:induction false} NoFailures(rs: seq<Result<Json>>)
    ensures Failures(rs) == [] <==> forall r | r in rs :: r.Ok?
    ensures Successes(rs) == [] <==> forall r | r in rs :: r.Err?
  {
    if rs != [] {
      NoFailures(rs[..|rs| - 1]);
      assert forall r :: r in rs <==> r in rs[..|rs| - 1] || r == rs[|rs| - 1];
    }
  }

  /**
    Conservation. Every build has exactly one result; the two lists of the outcome merge back
    into those results in their order; the handler returns normally exactly when every build
    succeeded, and otherwise throws with status 500 exactly when none did, 202 if some did.
   */
  lemma Conservation(answers: Answers, isMpc: bool, before: seq<Fields>, builds: seq<Fields>)
    ensures var rs := Results(answers, isMpc, before, builds);
            var o := Verdict(rs);
            && !o.Rejected?
            && |rs| == |builds|
            && Merge(Marks(rs), o.success, o.failure) == Some(rs)
            && (o.Returned? <==> forall r | r in rs :: r.Ok?)
            && (o.Thrown? ==> (o.status == 500 <==> forall r | r in rs :: r.Err?) && o.status in {500, 202})
  {
    Partition(Results(answers, isMpc, before, builds));
    NoFailures(Results(answers, isMpc, before, builds));
  }

  /** How many of the builds can be sent. */
  function Sendable(isMpc: bool, builds: seq<Fields>): nat {
    if builds == [] then 0
    else Sendable(isMpc, builds[..|builds| - 1]) + if Message(isMpc, builds[|builds| - 1]).Some? then 1 else 0
  }

  lemma {:induction false} SendableCounts(isMpc: bool, builds: seq<Fields>)
    ensures |Sent(isMpc, builds)| == Sendable(isMpc, builds) <= |builds|
    ensures !isMpc ==> Sendable(isMpc, builds) == |builds|
  {
    if builds != [] {
      SendableCounts(isMpc, builds[..|builds| - 1]);
    }
  }

  lemma {:induction false} SentPrefix(isMpc: bool, builds: seq<Fields>, i: nat)
    requires i <= |builds|
    ensures Sent(isMpc, builds[..i]) <= Sent(isMpc, builds)
  {
    if i < |builds| {
      SentPrefix(isMpc, builds[..|builds| - 1], i);
      assert builds[..|builds| - 1][..i] == builds[..i];
    } else {
      assert builds[..i] == builds;
    }
  }

  lemma {:induction false} ResultAt(answers: Answers, isMpc: bool, before: seq<Fields>, builds: seq<Fields>, i: nat)
    requires i < |builds|
    ensures Results(answers, isMpc, before, builds)[i] ==
              match Message(isMpc, builds[i])
              case None => Err(Internal)
              case Some(tx) => answers(before + Sent(isMpc, builds[..i]), tx)
  {
    if i < |builds| - 1 {
      ResultAt(answers, isMpc, before, builds[..|builds| - 1], i);
      assert builds[..|builds| - 1][..i] == builds[..i];
    }
  }

  /**
    Each build that can be sent is sent once, at the place counted by the sendable builds
    before it, and nothing else is sent. In a wallet that is not MPC every build can be sent;
    in an MPC wallet the others count as failures.
   */
  lemma EachSentOnce(answers: Answers, isMpc: bool, before: seq<Fields>, builds: seq<Fields>, i: nat)
    requires i < |builds|
    ensures Results(answers, isMpc, before, builds)[i] ==
              match Message(isMpc, builds[i])
              case None => Err(Internal)
              case Some(tx) => answers(before + Sent(isMpc, builds[..i]), tx)
    ensures |Sent(isMpc, builds)| == Sendable(isMpc, builds)
    ensures !isMpc ==> Sendable(isMpc, builds) == |builds| && Sendable(isMpc, builds[..i]) == i
    ensures Message(isMpc, builds[i]).Some? ==>
              && Sendable(isMpc, builds[..i]) < Sendable(isMpc, builds)
              && Some(Sent(isMpc, builds)[Sendable(isMpc, builds[..i])]) == Message(isMpc, builds[i])
  {
    hide Message;
    SendableCounts(isMpc, builds);
    SendableCounts(isMpc, builds[..i]);
    SentPrefix(isMpc, builds, i + 1);
    assert builds[..i + 1][..i] == builds[..i];
    ResultAt(answers, isMpc, before, builds, i);
  }

  // ----- What is sent -----

  /** The transaction a build is sent as, field by field, when it can be sent. */
  ghost predicate SentAs(isMpc: bool, build: Fields, m: Fields) {
    if isMpc then
      && TxRequestId in build && build[TxRequestId] !in {JNull, JBool(false), JNum(0.0), JStr("")}
      && m.Keys == {TxRequestId} && m[TxRequestId] == build[TxRequestId]
    else
      && (forall k | k != BuildParams :: Field(m, k) == Field(build, k))
      && IsObject(Field(m, BuildParams)) && m[BuildParams].fields.Keys == {Recipients}
      && m[BuildParams].fields[Recipients] ==
           if Recipients in build && build[Recipients] != JNull then build[Recipients] else JArr([])
  }

  lemma SentAsIsOne(isMpc: bool, build: Fields, m: Fields, n: Fields)
    requires SentAs(isMpc, build, m) && SentAs(isMpc, build, n)
    ensures m == n
  {
    if !isMpc {
      assert m[BuildParams].fields == n[BuildParams].fields;
      assert m[BuildParams] == JObj(m[BuildParams].fields) && n[BuildParams] == JObj(n[BuildParams].fields);
      assert forall k :: Field(m, k) == Field(n, k);
      SameFields(m, n);
    }
  }

  /** An MPC build is sent as its transaction request, any other as itself with its own recipients. */
  lemma MessageExactly(isMpc: bool, build: Fields, m: Fields)
    ensures Message(isMpc, build) == Some(m) <==> SentAs(isMpc, build, m)
  {
    FalseValues(Field(build, TxRequestId));
    hide Truth;
    if Message(isMpc, build).Some? {
      assert SentAs(isMpc, build, Message(isMpc, build).value);
      if SentAs(isMpc, build, m) {
        SentAsIsOne(isMpc, build, m, Message(isMpc, build).value);
      }
    }
  }

  /** Builds are sent exactly when the wallet, its keys, the coin and the addresses all pass. */
  lemma BuildsExactly(req: Request, isMpc: bool, builds: seq<Fields>)
    ensures Builds(req) == Ok((isMpc, builds)) <==>
              && req.wallet == Ok(isMpc) && req.walletPubs.Ok? && req.allowsConsolidations && req.builds == Ok(builds)
              && (req.consolidateAddresses in {None, Some(JNull), Some(JBool(false)), Some(JNum(0.0)), Some(JStr(""))}
                  || req.consolidateAddresses.value.JArr?)
  {
    FalseValues(req.consolidateAddresses);
    hide Truth;
  }
}
