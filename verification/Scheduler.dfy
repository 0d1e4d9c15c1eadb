/** The event-sourced batch scheduler: one event in, the next state or a refusal out. */
module Scheduler {
  import opened Wrappers
  import opened Chain
  import opened Scopes
  import W = Workloads

  datatype Outcome =
    | Blocked | Cancelled | Infrastructure | Missing
    | Passed | Failed | QuickPassed | QuickFailed | Deferred

  datatype Kind = Auto | Bootstrap | Node | Candidate | Retry

  /** A workflow run; only first attempts are fresh requests. */
  datatype Run = Run(id: int, attempt: int)

  datatype Proof = Proof(outcome: Outcome, jobs: map<string, string>)

  datatype RetryOf = RetryOf(request: string, environmental: map<string, Proof>)

  datatype Request = Request(
    id: string,
    kind: Kind,
    base: Option<string>,
    target: string,
    control: string,
    policy: string,
    selection: Selection,
    originRun: Run,
    verification: Option<W.Workload>,
    retryOf: Option<RetryOf>)

  datatype Observation = Observation(
    requestId: string,
    run: Run,
    target: string,
    policy: string,
    outcomes: map<string, Outcome>,
    reference: string,
    terminal: bool)

  datatype Data =
    | Observe(target: string, descendsPending: bool)
    | Enqueue(request: Request)
    | Admit(request: Request, executorRun: Run, historyComplete: bool, ancestor: bool, oldRunsTerminal: bool)
    | Claim(requestId: string, run: Run)
    | Report(observation: Observation)
    | Advance(requestId: string)
    | Resume(suites: seq<string>, reason: string)
    | Block(why: string, remedy: string)
    | Unblock(reconciled: bool)

  datatype Active = Active(requestId: string, executorRun: Run, claim: Option<Run>)

  datatype Debt = Debt(target: string, attempts: nat, paused: bool, outcome: Outcome, reference: string)

  datatype FailureNote = FailureNote(suite: string, target: string, reference: string)

  datatype State = State(
    epoch: string,
    generation: nat,
    processed: Option<string>,
    pending: Option<string>,
    active: Option<Active>,
    queue: seq<string>,
    requests: map<string, Request>,
    results: map<string, Observation>,
    debts: map<string, Debt>,
    failures: seq<FailureNote>,
    events: map<string, Event<Data>>,
    blocked: bool,
    recoveryRequested: bool)

  function NewState(epoch: string): State {
    State(epoch, 0, None, None, None, [], map[], map[], map[], [], map[], false, false)
  }

  // ---------------------------------------------------------------- requests

  predicate ExactSha(value: string) {
    |value| == 40 && forall c <- value :: '0' <= c <= '9' || 'a' <= c <= 'f'
  }

  predicate Fresh(run: Run) {
    run.id > 0 && run.attempt == 1
  }

  predicate Explicit(kind: Kind) {
    kind == Node || kind == Candidate || kind == Retry
  }

  predicate IsDebt(outcome: Outcome) {
    outcome == Blocked || outcome == Cancelled || outcome == Infrastructure || outcome == Missing
  }

  predicate Environmental(conclusion: string) {
    conclusion == "timed_out" || conclusion == "cancelled"
  }

  /** The frozen proof of a retry: one environmental explanation for each retried suite. */
  predicate RetryProof(retryOf: RetryOf, suites: set<string>) {
    && retryOf.request != ""
    && retryOf.environmental.Keys == suites != {}
    && forall suite <- retryOf.environmental ::
         var proof := retryOf.environmental[suite];
         && (IsDebt(proof.outcome) || proof.outcome == Failed)
         && (forall job <- proof.jobs :: job != "" && Environmental(proof.jobs[job]))
         && (proof.outcome == Failed <==> proof.jobs != map[])
  }

  /** Bounds the explanation of a selection when a request is first made. */
  type Explain = set<string> -> set<string>

  function Unbounded(): Explain {
    reasons => reasons
  }

  /** A retry re-runs suites as they are; every other request is closed under dependencies. */
  function RequestSelection(policy: Policy, kind: Kind, selection: Selection, explain: Explain): Result<Selection> {
    var chosen :- if kind == Retry then Select(policy, Elements(selection.suites), Elements(selection.reasons))
                  else Union(policy, [selection]);
    Select(policy, Elements(chosen.suites), explain(Elements(chosen.reasons)))
  }

  function MakeRequest(policy: Policy, id: string, kind: Kind, base: Option<string>, target: string, control: string,
                       selection: Selection, originRun: Run, explain: Explain,
                       verification: Option<W.Workload>, retryOf: Option<RetryOf>): Result<Request> {
    var chosen :- RequestSelection(policy, kind, selection, explain);
    var suites := Elements(chosen.suites);
    if
      && id != ""
      && (kind == Retry <==> retryOf.Some?)
      && (base.Some? ==> ExactSha(base.value))
      && (kind == Bootstrap || kind == Node || kind == Candidate ==> chosen.scope == Everything)
      && (kind == Retry ==> chosen.suites != [])
      && ExactSha(target) && ExactSha(control) && Fresh(originRun)
      && (verification.Some? ==> kind == Auto && W.Fits(verification.value, suites))
      && (retryOf.Some? ==> RetryProof(retryOf.value, suites))
    then
      Success(Request(id, kind, base, target, control, policy.digest, chosen, originRun, verification, retryOf))
    else
      Failure
  }

  /** A stored request has to rebuild to itself. */
  predicate Rebuilds(policy: Policy, r: Request) {
    MakeRequest(policy, r.id, r.kind, r.base, r.target, r.control, r.selection, r.originRun, Unbounded(), r.verification, r.retryOf)
      == Success(r)
  }

  /** What a stored request has to be, without reference to how it was made. */
  predicate WellMade(policy: Policy, r: Request) {
    var suites := Elements(r.selection.suites);
    && r.id != "" && r.policy == policy.digest
    && ExactSha(r.target) && ExactSha(r.control) && (r.base.Some? ==> ExactSha(r.base.value)) && Fresh(r.originRun)
    && Exact(policy, r.selection)
    && (r.kind != Retry ==> Closed(policy.dependencies, suites))
    && (r.kind == Bootstrap || r.kind == Node || r.kind == Candidate ==> r.selection.scope == Everything)
    && (r.kind == Retry <==> r.retryOf.Some?)
    && (r.retryOf.Some? ==> RetryProof(r.retryOf.value, suites))
    && (r.verification.Some? ==> r.kind == Auto && W.Fits(r.verification.value, suites))
  }

  lemma RebuildsMeans(policy: Policy, r: Request)
    ensures Rebuilds(policy, r) <==> WellMade(policy, r)
  {
    hide W.Fits, Closure, Select;
    UnionOfOne(policy, r.selection);
    SelectIsExact(policy, Elements(r.selection.suites), Elements(r.selection.reasons));
    NoElements(r.selection.suites);
    if Rebuilds(policy, r) && r.kind != Retry {
      UnionMeans(policy, [r.selection]);
      assert r.selection in [r.selection];
      assert Exact(policy, r.selection) && Closed(policy.dependencies, Elements(r.selection.suites)) by {
        UnionIsExact(policy, r.selection);
      }
    }
  }

  /** A request that was made, however its explanation was bounded, rebuilds to itself when it is read back. */
  lemma MadeRequestsRebuild(policy: Policy, id: string, kind: Kind, base: Option<string>, target: string, control: string,
                                               selection: Selection, originRun: Run, explain: Explain,
                                               verification: Option<W.Workload>, retryOf: Option<RetryOf>)
    ensures var r := MakeRequest(policy, id, kind, base, target, control, selection, originRun, explain, verification, retryOf);
      r.Success? ==> Rebuilds(policy, r.value)
  {
    hide W.Fits, Closure;
    var r := MakeRequest(policy, id, kind, base, target, control, selection, originRun, explain, verification, retryOf);
    if r.Success? {
      SelectionIsMade(policy, kind, selection, explain);
      NoElements(r.value.selection.suites);
      RebuildsMeans(policy, r.value);
    }
  }

  lemma SelectionIsMade(policy: Policy, kind: Kind, selection: Selection, explain: Explain)
    ensures var s := RequestSelection(policy, kind, selection, explain);
      s.Success? ==> Exact(policy, s.value) && (kind != Retry ==> Closed(policy.dependencies, Elements(s.value.suites)))
  {
    hide Closure;
    var chosen := if kind == Retry then Select(policy, Elements(selection.suites), Elements(selection.reasons)) else Union(policy, [selection]);
    if chosen.Success? {
      UnionMeans(policy, [selection]);
      SelectIsExact(policy, Elements(chosen.value.suites), explain(Elements(chosen.value.reasons)));
    }
  }

  lemma UnionIsExact(policy: Policy, s: Selection)
    requires Union(policy, [s]).Success?
    ensures Exact(policy, s) && AllSuites([s]) == Elements(s.suites) && AllReasons([s]) == Elements(s.reasons)
    ensures Union(policy, [s]) == Select(policy, Closure(policy.dependencies, Elements(s.suites)), Elements(s.reasons))
  {
    assert s in [s];
    assert [s][1..] == [];
  }

  function WorkloadOf(r: Request, suite: string): W.Mode {
    if r.verification.Some? && suite in r.verification.value then r.verification.value[suite] else W.Full
  }

  function MissingOutcomes(r: Request): map<string, Outcome> {
    map suite | suite in r.selection.suites ::
      if r.verification.Some? && suite in r.verification.value && r.verification.value[suite] == W.Deferred then Deferred else Missing
  }

  /** What a result may say about a suite is fixed by the workload the request froze. */
  predicate AllowedOutcome(mode: W.Mode, outcome: Outcome) {
    if mode == W.Deferred then outcome == Deferred
    else IsDebt(outcome) || (if mode == W.Full then outcome == Passed || outcome == Failed
                             else outcome == QuickPassed || outcome == QuickFailed)
  }

  /** What the journal must already say before a candidate may be retried. */
  predicate RetryAdmissible(s: State, r: Request)
    requires r.retryOf.Some?
  {
    var proof := r.retryOf.value;
    && proof.request in s.requests
    && var original := s.requests[proof.request];
    && original.kind == Candidate && original.target == r.target && original.policy == r.policy
    && original.id in s.results
    && var outcomes := s.results[original.id].outcomes;
    && Elements(r.selection.suites) == (set suite | suite in outcomes && outcomes[suite] != Passed)
    && (forall suite <- proof.environmental :: suite in outcomes && proof.environmental[suite].outcome == outcomes[suite])
    && !AlreadyRetried(s, original.id)
  }

  predicate AlreadyRetried(s: State, candidate: string) {
    exists id <- s.requests :: Retries(s.requests[id], candidate)
  }

  predicate Retries(r: Request, candidate: string) {
    r.kind == Retry && r.retryOf.Some? && r.retryOf.value.request == candidate
  }

  /** Suites whose debt is still to be worked off without an operator. */
  function ExecutableDebt(s: State): set<string> {
    set suite | suite in s.debts && !s.debts[suite].paused
  }

  const CARRY := "carry executable verification debt"

  function RequiredSelection(s: State, policy: Policy, selection: Selection): Result<Selection> {
    var debt := ExecutableDebt(s);
    var extra :- Select(policy, debt, if debt == {} then {} else {CARRY});
    Union(policy, [selection, extra])
  }

  // ---------------------------------------------------------------- transitions

  function ObserveMain(s: State, target: string, descendsPending: bool): Result<State> {
    if ExactSha(target) && descendsPending then Success(s.(pending := Some(target))) else Failure
  }

  function EnqueueExplicit(s: State, r: Request, policy: Policy): Result<State> {
    if !Rebuilds(policy, r) || !Explicit(r.kind) then Failure
    else if r.id in s.requests then
      if s.requests[r.id] == r then Success(s) else Failure
    else if r.kind == Retry && !(r.retryOf.Some? && RetryAdmissible(s, r)) then Failure
    else Success(s.(requests := s.requests[r.id := r], queue := s.queue + [r.id]))
  }

  predicate CarriesDebt(s: State, r: Request, policy: Policy) {
    var needed := RequiredSelection(s, policy, r.selection);
    && needed.Success?
    && Elements(needed.value.suites) <= Elements(r.selection.suites)
    && forall suite <- s.debts :: s.debts[suite].paused || WorkloadOf(r, suite) == W.Full
  }

  predicate AutomaticAdmissible(s: State, r: Request, policy: Policy, oldRunsTerminal: bool) {
    && s.queue == []
    && r.id !in s.requests
    && s.pending == Some(r.target)
    && r.base == s.processed
    && (if r.kind == Bootstrap then s.processed.None? && oldRunsTerminal
        else s.processed.Some? && (r.target != s.processed.value || s.recoveryRequested))
    && CarriesDebt(s, r, policy)
  }

  function AdmitBatch(s: State, r: Request, executor: Run, historyComplete: bool, ancestor: bool, oldRunsTerminal: bool,
                      policy: Policy): Result<State> {
    if
      || !Fresh(executor) || !Rebuilds(policy, r) || s.active.Some? || s.blocked || !historyComplete || !ancestor
      || (s.processed.None? && !oldRunsTerminal)
    then
      Failure
    else
      var admitted := s.(active := Some(Active(r.id, executor, None)));
      if Explicit(r.kind) then
        if s.queue != [] && s.queue[0] == r.id && r.id in s.requests && s.requests[r.id] == r then
          Success(admitted.(queue := s.queue[1..]))
        else Failure
      else if AutomaticAdmissible(s, r, policy, oldRunsTerminal) then
        Success(admitted.(requests := s.requests[r.id := r], recoveryRequested := false))
      else Failure
  }

  predicate IsActive(s: State, id: string) {
    s.active.Some? && s.active.value.requestId == id && id in s.requests
  }

  function ClaimExecution(s: State, id: string, run: Run): Result<State> {
    if
      && s.active.Some? && s.active.value.requestId == id
      && Fresh(run) && run == s.active.value.executorRun
      && (s.active.value.claim.None? || s.active.value.claim == Some(run))
    then Success(s.(active := Some(s.active.value.(claim := Some(run)))))
    else Failure
  }

  predicate Reportable(s: State, o: Observation) {
    && IsActive(s, o.requestId)
    && var r := s.requests[o.requestId];
    && Fresh(o.run) && s.active.value.claim == Some(o.run)
    && o.target == r.target && o.policy == r.policy && o.terminal && o.reference != ""
    && o.outcomes.Keys == Elements(r.selection.suites)
    && (forall suite <- o.outcomes :: AllowedOutcome(WorkloadOf(r, suite), o.outcomes[suite]))
    && (o.requestId in s.results ==> s.results[o.requestId] == o)
  }

  function RecordResult(s: State, o: Observation): Result<State> {
    if Reportable(s, o) then Success(s.(results := s.results[o.requestId := o])) else Failure
  }

  /** Whether a suite is owed after a batch: a debt outcome adds it, a full result clears it, anything else keeps it. */
  predicate Owed(debts: map<string, Debt>, r: Request, o: Observation, suite: string) {
    if suite in o.outcomes then IsDebt(o.outcomes[suite]) || (suite in debts && WorkloadOf(r, suite) != W.Full)
    else suite in debts
  }

  function DebtAfter(debts: map<string, Debt>, r: Request, o: Observation, suite: string): Debt
    requires Owed(debts, r, o, suite)
  {
    if suite in o.outcomes && IsDebt(o.outcomes[suite]) then
      var attempts := (if suite in debts then debts[suite].attempts else 0) + 1;
      Debt(r.target, attempts, attempts >= 2, o.outcomes[suite], o.reference)
    else
      debts[suite]
  }

  function SettledDebts(debts: map<string, Debt>, r: Request, o: Observation): map<string, Debt> {
    map suite | suite in debts.Keys + o.outcomes.Keys && Owed(debts, r, o, suite) :: DebtAfter(debts, r, o, suite)
  }

  predicate IsFailure(outcome: Outcome) {
    outcome == Failed || outcome == QuickFailed
  }

  function NewFailures(suites: seq<string>, r: Request, o: Observation): seq<FailureNote> {
    if suites == [] then []
    else
      (if suites[0] in o.outcomes && IsFailure(o.outcomes[suites[0]]) then [FailureNote(suites[0], r.target, o.reference)] else [])
      + NewFailures(suites[1..], r, o)
  }

  function FailuresAfter(failures: seq<FailureNote>, r: Request, o: Observation): seq<FailureNote> {
    failures + NewFailures(Enumerate(o.outcomes.Keys), r, o)
  }

  function AdvanceCursor(s: State, id: string): Result<State> {
    if !IsActive(s, id) || id !in s.results then Failure
    else
      var r, o := s.requests[id], s.results[id];
      if Explicit(r.kind) then Success(s.(active := None))
      else
        Success(s.(active := None, processed := Some(r.target), debts := SettledDebts(s.debts, r, o),
                   failures := FailuresAfter(s.failures, r, o)))
  }

  function Resumed(debts: map<string, Debt>, suites: set<string>): map<string, Debt> {
    map suite | suite in debts :: if suite in suites then debts[suite].(paused := false, attempts := 0) else debts[suite]
  }

  function ResumeDebt(s: State, suites: seq<string>, reason: string): Result<State> {
    if reason != "" && suites != [] && Elements(suites) <= s.debts.Keys then
      Success(s.(debts := Resumed(s.debts, Elements(suites)), recoveryRequested := true))
    else Failure
  }

  function Transition(s: State, data: Data, policy: Policy): Result<State> {
    match data
    case Observe(target, descends) => ObserveMain(s, target, descends)
    case Enqueue(request) => EnqueueExplicit(s, request, policy)
    case Admit(request, executor, complete, ancestor, terminal) =>
      AdmitBatch(s, request, executor, complete, ancestor, terminal, policy)
    case Claim(id, run) => ClaimExecution(s, id, run)
    case Report(observation) => RecordResult(s, observation)
    case Advance(id) => AdvanceCursor(s, id)
    case Resume(suites, reason) => ResumeDebt(s, suites, reason)
    case Block(why, remedy) => if why != "" && remedy != "" then Success(s.(blocked := true)) else Failure
    case Unblock(reconciled) => if reconciled then Success(s.(blocked := false)) else Failure
  }

  function Stamp(s: State, e: Event<Data>): State {
    s.(events := s.events[e.id := e], generation := s.generation + 1)
  }

  /** An exact replay changes nothing; anything else has to carry the current epoch and generation. */
  function Reduce(s: State, e: Event<Data>, policy: Policy): Result<State> {
    if e.id == "" then Failure
    else if e.id in s.events then
      if s.events[e.id] == e then Success(s) else Failure
    else if e.epoch != s.epoch || e.generation != s.generation then Failure
    else
      var t :- Transition(s, e.data, policy);
      Success(Stamp(t, e))
  }

  // ---------------------------------------------------------------- the loops of the reducer

  /** Debts once the first `n` outcomes have been worked in. */
  ghost predicate PartlySettled(before: map<string, Debt>, now: map<string, Debt>, r: Request, o: Observation, done: set<string>) {
    && (forall suite | suite in done :: (suite in now <==> Owed(before, r, o, suite))
                                        && (suite in now ==> now[suite] == DebtAfter(before, r, o, suite)))
    && (forall suite | suite !in done :: (suite in now <==> suite in before)
                                         && (suite in before ==> now[suite] == before[suite]))
  }

  lemma {:induction false} FailuresSnoc(a: seq<string>, suite: string, r: Request, o: Observation)
    ensures NewFailures(a + [suite], r, o) == NewFailures(a, r, o) + NewFailures([suite], r, o)
    decreases |a|
  {
    if a == [] {
      assert a + [suite] == [suite];
    } else {
      assert (a + [suite])[1..] == a[1..] + [suite];
      FailuresSnoc(a[1..], suite, r, o);
    }
  }

  lemma {:induction false} NoFailures(r: Request, o: Observation)
    ensures NewFailures([], r, o) == []
  {
  }

  lemma {:induction false} OneFailure(suite: string, r: Request, o: Observation)
    ensures NewFailures([suite], r, o)
      == if suite in o.outcomes && IsFailure(o.outcomes[suite]) then [FailureNote(suite, r.target, o.reference)] else []
  {
    assert [suite][1..] == [];
  }

  lemma NothingSettled(debts: map<string, Debt>, r: Request, o: Observation)
    ensures PartlySettled(debts, debts, r, o, {})
  {
  }

  /** What the loop does to the debts for one suite. */
  function SettleOne(debts: map<string, Debt>, r: Request, o: Observation, suite: string): map<string, Debt>
    requires suite in o.outcomes
  {
    var outcome := o.outcomes[suite];
    if IsDebt(outcome) then
      var attempts := (if suite in debts then debts[suite].attempts else 0) + 1;
      debts[suite := Debt(r.target, attempts, attempts >= 2, outcome, o.reference)]
    else if WorkloadOf(r, suite) == W.Full then debts - {suite}
    else debts
  }

  lemma SettleOneMore(before: map<string, Debt>, now: map<string, Debt>, r: Request, o: Observation,
                                         done: set<string>, suite: string)
    requires suite in o.outcomes && suite !in done
    requires PartlySettled(before, now, r, o, done)
    ensures PartlySettled(before, SettleOne(now, r, o, suite), r, o, done + {suite})
  {
  }

  lemma PrefixStep(suites: seq<string>, i: nat)
    requires Canonical(suites) && i < |suites|
    ensures suites[..i + 1] == suites[..i] + [suites[i]]
    ensures suites[i] !in Elements(suites[..i])
    ensures Elements(suites[..i + 1]) == Elements(suites[..i]) + {suites[i]}
  {
    assert suites[..i + 1] == suites[..i] + [suites[i]];
    forall k | 0 <= k < i ensures suites[k] != suites[i] {
      BeforeIsTotal(suites[k], suites[i]);
    }
  }

  lemma FullySettled(before: map<string, Debt>, now: map<string, Debt>, r: Request, o: Observation)
    requires PartlySettled(before, now, r, o, o.outcomes.Keys)
    ensures now == SettledDebts(before, r, o)
  {
    var spec := SettledDebts(before, r, o);
    forall suite ensures suite in now <==> suite in spec {
    }
    forall suite | suite in now ensures now[suite] == spec[suite] {
    }
  }

  /** Works the outcomes into debts and failures one suite at a time, in the order the journal stores them. */
  method SettleOutcomes(s: State, r: Request, o: Observation) returns (debts: map<string, Debt>, failures: seq<FailureNote>)
    ensures debts == SettledDebts(s.debts, r, o)
    ensures failures == FailuresAfter(s.failures, r, o)
  {
    hide PartlySettled, SettledDebts, Canonical, NewFailures, WorkloadOf, IsDebt, IsFailure;
    debts, failures := s.debts, s.failures;
    var suites := Enumerate(o.outcomes.Keys);
    NothingSettled(s.debts, r, o);
    NoFailures(r, o);
    assert Elements(suites[..0]) == {};
    for i := 0 to |suites|
      invariant PartlySettled(s.debts, debts, r, o, Elements(suites[..i]))
      invariant failures == s.failures + NewFailures(suites[..i], r, o)
    {
      var suite := suites[i];
      PrefixStep(suites, i);
      FailuresSnoc(suites[..i], suite, r, o);
      OneFailure(suite, r, o);
      assert suite in Elements(suites);
      SettleOneMore(s.debts, debts, r, o, Elements(suites[..i]), suite);
      var outcome := o.outcomes[suite];
      if IsDebt(outcome) {
        var attempts := (if suite in debts then debts[suite].attempts else 0) + 1;
        debts := debts[suite := Debt(r.target, attempts, attempts >= 2, outcome, o.reference)];
      } else if WorkloadOf(r, suite) == W.Full {
        debts := debts - {suite};
      }
      if IsFailure(outcome) {
        failures := failures + [FailureNote(suite, r.target, o.reference)];
      }
    }
    assert suites[..|suites|] == suites;
    FullySettled(s.debts, debts, r, o);
  }

  method ResumeSuites(s: State, suites: seq<string>) returns (debts: map<string, Debt>)
    requires Elements(suites) <= s.debts.Keys
    ensures debts == Resumed(s.debts, Elements(suites))
  {
    debts := s.debts;
    for i := 0 to |suites|
      invariant debts == Resumed(s.debts, Elements(suites[..i]))
    {
      assert suites[..i + 1] == suites[..i] + [suites[i]];
      assert suites[i] in Elements(suites);
      debts := debts[suites[i] := debts[suites[i]].(paused := false, attempts := 0)];
    }
    assert suites[..|suites|] == suites;
  }

  method AdvanceInPlace(s: State, id: string) returns (r: Result<State>)
    ensures r == AdvanceCursor(s, id)
  {
    hide SettledDebts, FailuresAfter;
    if s.active.None? || s.active.value.requestId != id || id !in s.requests || id !in s.results {
      return Failure;
    }
    var result := s;
    var request, observation := s.requests[id], s.results[id];
    if request.kind == Auto || request.kind == Bootstrap {
      result := result.(processed := Some(request.target));
      var debts, failures := SettleOutcomes(s, request, observation);
      result := result.(debts := debts, failures := failures);
    }
    return Success(result.(active := None));
  }

  method ResumeInPlace(s: State, suites: seq<string>, reason: string) returns (r: Result<State>)
    ensures r == ResumeDebt(s, suites, reason)
  {
    if reason == "" || !(Elements(suites) <= s.debts.Keys) {
      return Failure;
    }
    var debts := ResumeSuites(s, suites);
    if suites == [] {
      return Failure;
    }
    return Success(s.(debts := debts, recoveryRequested := true));
  }

  /** The reducer as it runs: a copy of the state, updated in place. */
  method Apply(s: State, e: Event<Data>, policy: Policy) returns (r: Result<State>)
    ensures r == Reduce(s, e, policy)
  {
    hide ObserveMain, EnqueueExplicit, AdmitBatch, ClaimExecution, RecordResult, AdvanceCursor, ResumeDebt;
    if e.id == "" {
      return Failure;
    }
    if e.id in s.events {
      return if s.events[e.id] == e then Success(s) else Failure;
    }
    if e.epoch != s.epoch || e.generation != s.generation {
      return Failure;
    }
    var next: Result<State>;
    match e.data {
      case Advance(id) => next := AdvanceInPlace(s, id);
      case Resume(suites, reason) => next := ResumeInPlace(s, suites, reason);
      case _ => next := Transition(s, e.data, policy);
    }
    var result :- next;
    result := result.(events := result.events[e.id := e]);
    return Success(result.(generation := result.generation + 1));
  }
}
