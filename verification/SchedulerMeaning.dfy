/**
 * What each scheduler event asks of the journal and leaves in it, said suite by suite and field by field. The reducer
 * accepts exactly the events that are in order here, and makes exactly these states of them.
 */
module SchedulerMeaning {
  import opened Wrappers
  import opened Chain
  import opened Scopes
  import opened Scheduler
  import opened SchedulerRuns
  import opened SchedulerHistory
  import opened SchedulerSafety
  import W = Workloads

  // ---------------------------------------------------------------- results

  /** No frozen workload, or full workload, for the suite. */
  predicate RunsInFull(r: Request, suite: string) {
    r.verification.None? || suite !in r.verification.value || r.verification.value[suite] == W.Full
  }

  predicate IsDeferred(r: Request, suite: string) {
    r.verification.Some? && suite in r.verification.value && r.verification.value[suite] == W.Deferred
  }

  /** What a terminal run may say of a suite, given the workload that was frozen for it. */
  predicate Sayable(r: Request, suite: string, outcome: Outcome) {
    if IsDeferred(r, suite) then outcome == Deferred
    else if RunsInFull(r, suite) then outcome in {Blocked, Cancelled, Infrastructure, Missing, Passed, Failed}
    else outcome in {Blocked, Cancelled, Infrastructure, Missing, QuickPassed, QuickFailed}
  }

  /** The result of the active, claimed batch: every selected suite and no other, each with something sayable. */
  ghost predicate InOrder(s: State, o: Observation) {
    && s.active.Some? && s.active.value.requestId == o.requestId && o.requestId in s.requests
    && var r := s.requests[o.requestId];
    && o.run.id > 0 && o.run.attempt == 1 && s.active.value.claim == Some(o.run)
    && o.target == r.target && o.policy == r.policy && o.terminal && o.reference != ""
    && (forall suite :: suite in o.outcomes <==> suite in r.selection.suites)
    && (forall suite <- o.outcomes :: Sayable(r, suite, o.outcomes[suite]))
    && (o.requestId in s.results ==> s.results[o.requestId] == o)
  }

  lemma ReportMeans(s: State, o: Observation, policy: Policy)
    ensures var t := Transition(s, Report(o), policy);
      && (t.Success? <==> InOrder(s, o))
      && (t.Success? ==> t.value == s.(results := s.results[o.requestId := o]))
  {
    if o.requestId in s.requests {
      var r := s.requests[o.requestId];
      assert o.outcomes.Keys == Elements(r.selection.suites) <==> forall suite :: suite in o.outcomes <==> suite in r.selection.suites;
      forall suite | suite in o.outcomes
        ensures AllowedOutcome(WorkloadOf(r, suite), o.outcomes[suite]) <==> Sayable(r, suite, o.outcomes[suite])
      {
        WorkloadMeans(r, suite);
      }
    }
  }

  lemma WorkloadMeans(r: Request, suite: string)
    ensures WorkloadOf(r, suite) == W.Full <==> RunsInFull(r, suite)
    ensures WorkloadOf(r, suite) == W.Deferred <==> IsDeferred(r, suite)
  {
  }

  // ---------------------------------------------------------------- debts

  /** Blocked, cancelled, infrastructure failure or missing: the suite was not verified. */
  predicate Unverified(outcome: Outcome) {
    outcome in {Blocked, Cancelled, Infrastructure, Missing}
  }

  /** One attempt more than before, by this request and this result; paused from the second on. */
  predicate OpensDebt(before: map<string, Debt>, now: map<string, Debt>, r: Request, o: Observation, suite: string) {
    && suite in now && suite in o.outcomes
    && now[suite].target == r.target && now[suite].outcome == o.outcomes[suite] && now[suite].reference == o.reference
    && now[suite].attempts == (if suite in before then before[suite].attempts else 0) + 1
    && (now[suite].paused <==> now[suite].attempts > 1)
  }

  predicate SameDebt(before: map<string, Debt>, now: map<string, Debt>, suite: string) {
    (suite in now <==> suite in before) && (suite in now ==> now[suite] == before[suite])
  }

  /** Unverified suites become debts, verified ones are paid in full and only then, and nothing else changes. */
  ghost predicate WorksIn(before: map<string, Debt>, now: map<string, Debt>, r: Request, o: Observation) {
    forall suite ::
      if suite in o.outcomes && Unverified(o.outcomes[suite]) then OpensDebt(before, now, r, o, suite)
      else if suite in o.outcomes && RunsInFull(r, suite) then suite !in now
      else SameDebt(before, now, suite)
  }

  function FailedSuites(o: Observation): set<string> {
    set suite | suite in o.outcomes && o.outcomes[suite] in {Failed, QuickFailed}
  }

  function Notes(suites: seq<string>, target: string, reference: string): seq<FailureNote> {
    seq(|suites|, i requires 0 <= i < |suites| => FailureNote(suites[i], target, reference))
  }

  /**
   * Advancing ends the active batch once its result is recorded. An explicit batch leaves no other trace; an automatic
   * one moves the cursor to its target, works its outcomes into the debts, and notes its failures in suite order.
   */
  lemma AdvanceMeans(s: State, id: string, policy: Policy)
    ensures var t := Transition(s, Advance(id), policy);
      && (t.Success? <==> s.active.Some? && s.active.value.requestId == id && id in s.requests && id in s.results)
      && (t.Success? ==>
            var r, o := s.requests[id], s.results[id];
            if r.kind in {Node, Candidate, Retry} then t.value == s.(active := None)
            else
              && t.value == s.(active := None, processed := Some(r.target), debts := t.value.debts, failures := t.value.failures)
              && WorksIn(s.debts, t.value.debts, r, o)
              && t.value.failures == s.failures + Notes(Enumerate(FailedSuites(o)), r.target, o.reference))
  {
    hide SettledDebts, FailuresAfter, Enumerate;
    var t := Transition(s, Advance(id), policy);
    if t.Success? {
      var r, o := s.requests[id], s.results[id];
      SettledMeans(s.debts, r, o);
      FailuresMean(s.failures, r, o);
    }
  }

  lemma SettledMeans(debts: map<string, Debt>, r: Request, o: Observation)
    ensures WorksIn(debts, SettledDebts(debts, r, o), r, o)
  {
    hide WorkloadOf;
    forall suite ensures WorkloadOf(r, suite) == W.Full <==> RunsInFull(r, suite) {
      WorkloadMeans(r, suite);
    }
  }

  function Filter(suites: seq<string>, keep: set<string>): seq<string> {
    if suites == [] then [] else (if suites[0] in keep then [suites[0]] else []) + Filter(suites[1..], keep)
  }

  lemma {:induction false} FilterMeans(suites: seq<string>, keep: set<string>)
    requires Canonical(suites)
    ensures Canonical(Filter(suites, keep)) && Elements(Filter(suites, keep)) == Elements(suites) * keep
    decreases |suites|
  {
    if suites != [] {
      var rest := Filter(suites[1..], keep);
      assert forall i, j | 0 <= i < j < |suites[1..]| :: suites[1..][i] == suites[i + 1] && suites[1..][j] == suites[j + 1];
      FilterMeans(suites[1..], keep);
      assert forall x :: x in suites <==> x == suites[0] || x in suites[1..];
      if suites[0] in keep {
        forall j | 0 <= j < |rest| ensures Before(suites[0], rest[j]) {
          assert rest[j] in Elements(rest);
          var k :| 0 <= k < |suites[1..]| && suites[1..][k] == rest[j];
          assert suites[k + 1] == rest[j];
        }
        assert forall x :: x in [suites[0]] + rest <==> x == suites[0] || x in Elements(rest);
      } else {
        assert [] + rest == rest;
      }
    }
  }

  lemma {:induction false} NewFailuresMean(suites: seq<string>, r: Request, o: Observation)
    requires Elements(suites) <= o.outcomes.Keys
    ensures NewFailures(suites, r, o) == Notes(Filter(suites, FailedSuites(o)), r.target, o.reference)
    decreases |suites|
  {
    if suites != [] {
      assert suites[0] in Elements(suites);
      assert forall x :: x in suites[1..] ==> x in suites;
      NewFailuresMean(suites[1..], r, o);
    }
  }

  lemma FailuresMean(failures: seq<FailureNote>, r: Request, o: Observation)
    ensures FailuresAfter(failures, r, o) == failures + Notes(Enumerate(FailedSuites(o)), r.target, o.reference)
  {
    hide Enumerate, Canonical, Filter, NewFailures;
    var suites := Enumerate(o.outcomes.Keys);
    FilterMeans(suites, FailedSuites(o));
    NewFailuresMean(suites, r, o);
    CanonicalIsUnique(Filter(suites, FailedSuites(o)), Enumerate(FailedSuites(o)));
  }

  /** The event advances an automatic batch whose recorded result leaves the suite unverified. */
  predicate LeavesUnverified(s: State, data: Data, suite: string) {
    && data.Advance? && data.requestId in s.requests && data.requestId in s.results
    && s.requests[data.requestId].kind in {Auto, Bootstrap}
    && suite in s.results[data.requestId].outcomes && Unverified(s.results[data.requestId].outcomes[suite])
  }

  /**
   * However a log goes on after an automatic batch was advanced with a suite unverified: the suite is owed, for that
   * batch's target and with one attempt more than before, until a full-workload result clears it.
   */
  lemma {:induction false} UnverifiedIsOwed(a: Log, e: Event<Data>, b: Log, epoch: string, archive: Archive, s: State, u: State, t: State, suite: string)
    requires Replay(NewState(epoch), a, archive) == Success(s) && e.id !in s.events && Step(s, e, archive) == Success(u)
    requires LeavesUnverified(s, e.data, suite) && Replay(u, b, archive) == Success(t)
    ensures OpensDebt(s.debts, u.debts, s.requests[e.data.requestId], s.results[e.data.requestId], suite)
    ensures suite !in t.debts ==> ClearedWithin(u, b, archive, suite)
  {
    hide Replay, Transition;
    var policy := PolicyFor(e.data, archive).value;
    AdvanceMeans(s, e.data.requestId, policy);
    ReplaySnoc(NewState(epoch), a, e, archive);
    if suite !in t.debts {
      DebtIsNeverLost(a + [e], b, epoch, archive, u, t, suite);
    }
  }

  // ---------------------------------------------------------------- lost runs

  /** A lost run verified nothing: each selected suite is missing, or deferred where that was frozen. */
  ghost predicate ReportsLoss(r: Request, o: Observation) {
    && (forall suite :: suite in o.outcomes <==> suite in r.selection.suites)
    && (forall suite <- o.outcomes :: o.outcomes[suite] == if IsDeferred(r, suite) then Deferred else Missing)
  }

  lemma LossIsReported(r: Request, o: Observation)
    requires o.outcomes == MissingOutcomes(r)
    ensures ReportsLoss(r, o)
  {
  }

  /** The reducer accepts the loss of the claimed run, and advancing on it clears no debt and passes no suite. */
  lemma LossVerifiesNothing(s: State, id: string, policy: Policy)
    requires id in s.requests && id in s.results && ReportsLoss(s.requests[id], s.results[id])
    requires s.active.Some? && s.active.value.requestId == id
    ensures var r, o, t := s.requests[id], s.results[id], Transition(s, Advance(id), policy);
      && t.Success?
      && s.debts.Keys <= t.value.debts.Keys && t.value.failures == s.failures
      && (r.kind in {Auto, Bootstrap} ==>
            forall suite | suite in r.selection.suites && !IsDeferred(r, suite) :: OpensDebt(s.debts, t.value.debts, r, o, suite))
  {
    hide Transition, Enumerate;
    AdvanceMeans(s, id, policy);
    var r, o := s.requests[id], s.results[id];
    assert FailedSuites(o) == {};
    assert Enumerate({}) == [] by { NothingEnumerated(); }
    var t := Transition(s, Advance(id), policy);
    if r.kind in {Auto, Bootstrap} {
      forall suite | suite in s.debts ensures suite in t.value.debts {
        if suite in o.outcomes && !Unverified(o.outcomes[suite]) {
          assert IsDeferred(r, suite);
        }
      }
    }
  }

  lemma NothingEnumerated()
    ensures Enumerate({}) == []
  {
  }

  /** The loss of the claimed run is always a result the reducer accepts, as long as none is recorded yet. */
  lemma LossIsAccepted(s: State, o: Observation, policy: Policy)
    requires s.active.Some? && s.active.value.requestId == o.requestId && o.requestId in s.requests && o.requestId !in s.results
    requires ReportsLoss(s.requests[o.requestId], o)
    requires var r := s.requests[o.requestId]; o.target == r.target && o.policy == r.policy
    requires o.terminal && o.reference != "" && o.run.id > 0 && o.run.attempt == 1 && s.active.value.claim == Some(o.run)
    ensures Transition(s, Report(o), policy).Success?
  {
    ReportMeans(s, o, policy);
  }

  // ---------------------------------------------------------------- the other events

  lemma ObserveMeans(s: State, target: string, descends: bool, policy: Policy)
    ensures var t := Transition(s, Observe(target, descends), policy);
      && (t.Success? <==> descends && |target| == 40 && forall c <- target :: c in "0123456789abcdef")
      && (t.Success? ==> t.value == s.(pending := Some(target)))
  {
    forall c: char ensures c in "0123456789abcdef" <==> ('0' <= c <= '9' || 'a' <= c <= 'f') {
      HexDigits(c);
    }
  }

  lemma HexDigits(c: char)
    ensures c in "0123456789abcdef" <==> ('0' <= c <= '9' || 'a' <= c <= 'f')
  {
    var digits := "0123456789abcdef";
    if '0' <= c <= '9' {
      assert digits[c as int - '0' as int] == c;
    } else if 'a' <= c <= 'f' {
      assert digits[c as int - 'a' as int + 10] == c;
    }
  }

  /** The first claim of a batch is its executor's, and only the executor may repeat it. */
  lemma ClaimMeans(s: State, id: string, run: Run, policy: Policy)
    ensures var t := Transition(s, Claim(id, run), policy);
      && (t.Success? <==> run.id > 0 && run.attempt == 1
                          && (s.active == Some(Active(id, run, None)) || s.active == Some(Active(id, run, Some(run)))))
      && (t.Success? ==> t.value == s.(active := Some(Active(id, run, Some(run)))))
  {
  }

  /** A retry explains each suite it selects, and no other: a missing verification, or a failure whose jobs were cut off. */
  ghost predicate Explains(retryOf: RetryOf, suites: set<string>) {
    && retryOf.request != "" && suites != {}
    && (forall suite :: suite in retryOf.environmental <==> suite in suites)
    && forall suite <- retryOf.environmental ::
         var proof := retryOf.environmental[suite];
         && (forall job <- proof.jobs :: job != "" && (proof.jobs[job] == "timed_out" || proof.jobs[job] == "cancelled"))
         && if proof.outcome == Failed then proof.jobs != map[] else Unverified(proof.outcome) && proof.jobs == map[]
  }

  lemma ExplanationMeans(retryOf: RetryOf, suites: set<string>)
    ensures RetryProof(retryOf, suites) <==> Explains(retryOf, suites)
  {
    assert retryOf.environmental.Keys == suites <==> forall suite :: suite in retryOf.environmental <==> suite in suites;
  }

  /** Why a retry may be queued: an unretried candidate of the same target and policy whose result it covers and explains. */
  ghost predicate Retriable(s: State, r: Request) {
    && r.retryOf.Some?
    && var original := r.retryOf.value.request;
    && original in s.requests && s.requests[original].kind == Candidate
    && s.requests[original].target == r.target && s.requests[original].policy == r.policy
    && s.requests[original].id in s.results
    && var outcomes := s.results[s.requests[original].id].outcomes;
    && (forall suite :: suite in r.selection.suites <==> suite in outcomes && outcomes[suite] != Passed)
    && (forall suite <- r.retryOf.value.environmental ::
          suite in outcomes && r.retryOf.value.environmental[suite].outcome == outcomes[suite])
    && (forall id <- s.requests :: s.requests[id].kind == Retry && s.requests[id].retryOf.Some? ==>
          s.requests[id].retryOf.value.request != s.requests[original].id)
  }

  /** A well-made explicit request joins the end of the queue, or is there already; a retry also needs its reason. */
  lemma EnqueueMeans(s: State, r: Request, policy: Policy)
    ensures var t := Transition(s, Enqueue(r), policy);
      && (t.Success? <==>
            && WellMade(policy, r) && r.kind in {Node, Candidate, Retry}
            && (if r.id in s.requests then s.requests[r.id] == r else r.kind == Retry ==> Retriable(s, r)))
      && (t.Success? ==>
            t.value == if r.id in s.requests then s else s.(requests := s.requests[r.id := r], queue := s.queue + [r.id]))
  {
    hide Rebuilds, WellMade;
    RebuildsMeans(policy, r);
    if r.retryOf.Some? {
      RetriableMeans(s, r);
    }
  }

  lemma RetriableMeans(s: State, r: Request)
    requires r.retryOf.Some?
    ensures RetryAdmissible(s, r) <==> Retriable(s, r)
  {
    var proof := r.retryOf.value;
    if proof.request in s.requests && s.requests[proof.request].id in s.results {
      var original := s.requests[proof.request];
      var outcomes := s.results[original.id].outcomes;
      var unpassed := set suite | suite in outcomes && outcomes[suite] != Passed;
      assert forall suite :: suite in Elements(r.selection.suites) <==> suite in r.selection.suites;
      assert forall suite :: suite in unpassed <==> suite in outcomes && outcomes[suite] != Passed;
      assert Elements(r.selection.suites) == unpassed <==> forall suite :: suite in Elements(r.selection.suites) <==> suite in unpassed;
      assert AlreadyRetried(s, original.id) <==>
        exists id <- s.requests :: s.requests[id].kind == Retry && s.requests[id].retryOf.Some?
                                   && s.requests[id].retryOf.value.request == original.id;
    }
  }

  /** Resuming names owed suites: each of them may be tried again from the start, and an unchanged tip may be verified again. */
  lemma ResumeMeans(s: State, suites: seq<string>, reason: string, policy: Policy)
    ensures var t := Transition(s, Resume(suites, reason), policy);
      && (t.Success? <==> reason != "" && suites != [] && forall suite <- suites :: suite in s.debts)
      && (t.Success? ==>
            && t.value == s.(debts := t.value.debts, recoveryRequested := true)
            && t.value.debts.Keys == s.debts.Keys
            && forall suite <- s.debts ::
                 t.value.debts[suite] == if suite in suites then s.debts[suite].(paused := false, attempts := 0) else s.debts[suite])
  {
    assert Elements(suites) <= s.debts.Keys <==> forall suite <- suites :: suite in s.debts;
  }

  lemma BlockMeans(s: State, why: string, remedy: string, reconciled: bool, policy: Policy)
    ensures Transition(s, Block(why, remedy), policy) == if why != "" && remedy != "" then Success(s.(blocked := true)) else Failure
    ensures Transition(s, Unblock(reconciled), policy) == if reconciled then Success(s.(blocked := false)) else Failure
  {
  }

  // ---------------------------------------------------------------- admission

  /** Every executable debt is selected, closed under the policy's dependencies, and verified in full. */
  ghost predicate Carries(s: State, r: Request) {
    forall suite <- s.debts :: !s.debts[suite].paused ==> suite in r.selection.suites && RunsInFull(r, suite)
  }

  /** What the outside has to say before any batch may be admitted. */
  predicate Cleared(s: State, executor: Run, historyComplete: bool, ancestor: bool, oldRunsTerminal: bool) {
    && executor.id > 0 && executor.attempt == 1
    && s.active.None? && !s.blocked && historyComplete && ancestor
    && (s.processed.None? ==> oldRunsTerminal)
  }

  /** An explicit request is admitted exactly from the front of the queue. */
  lemma ExplicitAdmissionMeans(s: State, data: Data, policy: Policy)
    requires data.Admit? && data.request.kind in {Node, Candidate, Retry}
    ensures var r, t := data.request, Transition(s, data, policy);
      && (t.Success? <==>
            && Cleared(s, data.executorRun, data.historyComplete, data.ancestor, data.oldRunsTerminal) && WellMade(policy, r)
            && s.queue != [] && s.queue[0] == r.id && r.id in s.requests && s.requests[r.id] == r)
      && (t.Success? ==> t.value == s.(active := Some(Active(r.id, data.executorRun, None)), queue := s.queue[1..]))
  {
    hide Rebuilds, WellMade;
    RebuildsMeans(policy, data.request);
  }

  /**
   * An automatic batch is admitted exactly when nothing waits, it runs from the cursor to the observed tip (the very
   * same one only after a resume), and it carries every executable debt.
   */
  lemma AutomaticAdmissionMeans(s: State, data: Data, policy: Policy)
    requires data.Admit? && data.request.kind in {Auto, Bootstrap} && WellFormed(policy)
    requires forall suite <- s.debts :: !s.debts[suite].paused ==> suite in policy.suites
    ensures var r, t := data.request, Transition(s, data, policy);
      && (t.Success? <==>
            && Cleared(s, data.executorRun, data.historyComplete, data.ancestor, data.oldRunsTerminal) && WellMade(policy, r)
            && s.queue == [] && r.id !in s.requests
            && s.pending == Some(r.target) && r.base == s.processed
            && (if r.kind == Bootstrap then s.processed.None? && data.oldRunsTerminal
                else s.processed.Some? && (r.target != s.processed.value || s.recoveryRequested))
            && Carries(s, r))
      && (t.Success? ==>
            t.value == s.(active := Some(Active(r.id, data.executorRun, None)), requests := s.requests[r.id := r], recoveryRequested := false))
  {
    hide Rebuilds, WellMade, CarriesDebt;
    var r := data.request;
    RebuildsMeans(policy, r);
    if WellMade(policy, r) {
      CarriesMeans(s, r, policy);
    }
  }

  lemma CarriesMeans(s: State, r: Request, policy: Policy)
    requires WellFormed(policy) && WellMade(policy, r) && r.kind in {Auto, Bootstrap}
    requires forall suite <- s.debts :: !s.debts[suite].paused ==> suite in policy.suites
    ensures CarriesDebt(s, r, policy) <==> Carries(s, r)
  {
    hide Union, Select, Enumerate, Closure, WorkloadOf, Exact;
    var debt := ExecutableDebt(s);
    assert debt <= Elements(policy.suites);
    SelectSucceeds(policy, debt, if debt == {} then {} else {CARRY});
    var extra := Select(policy, debt, if debt == {} then {} else {CARRY}).value;
    var both := [r.selection, extra];
    UnionSucceeds(policy, both);
    UnionMeans(policy, both);
    assert r.selection in both && extra in both;
    assert forall selection <- both :: selection == r.selection || selection == extra;
    TwoSuites(r.selection, extra);
    forall suite | suite in s.debts ensures WorkloadOf(r, suite) == W.Full <==> RunsInFull(r, suite) {
      WorkloadMeans(r, suite);
    }
    var needed := Union(policy, both).value;
    var suites := Elements(r.selection.suites);
    if Carries(s, r) {
      assert debt <= suites;
      assert AllSuites(both) == suites;
      assert Elements(needed.suites) <= suites;
    }
    if CarriesDebt(s, r, policy) {
      assert debt <= Elements(needed.suites) <= suites;
      forall suite | suite in s.debts && !s.debts[suite].paused ensures suite in r.selection.suites {
        assert suite in debt;
      }
    }
  }

  lemma SelectSucceeds(policy: Policy, suites: set<string>, reasons: set<string>)
    requires suites <= Elements(policy.suites)
    ensures var r := Select(policy, suites, reasons); r.Success? && Exact(policy, r.value) && Elements(r.value.suites) == suites
  {
    SelectIsExact(policy, suites, reasons);
  }

  lemma TwoSuites(a: Selection, b: Selection)
    ensures AllSuites([a, b]) == Elements(a.suites) + Elements(b.suites)
  {
    assert [a, b][1..] == [b] && [b][1..] == [];
    assert AllSuites([b]) == Elements(b.suites) + AllSuites([]);
    assert AllSuites([a, b]) == Elements(a.suites) + AllSuites([b]);
  }
}
