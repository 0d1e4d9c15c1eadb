/** One locked journal transaction: replay, settle the active batch, admit the next one, and hand out at most one execution. */
module Controllers {
  import opened Wrappers
  import opened Chain
  import opened Protocol
  import opened Journals
  import opened Scopes
  import opened Scheduler
  import opened SchedulerRuns
  import opened Sequences
  import opened SchedulerHistory
  import opened SchedulerSafety
  import opened SchedulerMeaning
  import W = Workloads

  // ---------------------------------------------------------------- ports

  datatype RunState = Terminal | Running | Unknown

  datatype Receipt = Ready(outcomes: map<string, Outcome>, reference: string) | Lost | NotYet

  datatype Command = Command(id: string, suites: seq<string>, reason: string)

  /**
   * Authenticated observations of one call. Those that are made twice take the moment: 0 before settlement, 1 at
   * the admission boundary. A `Failure` is an exception of the port.
   */
  datatype Ports = Ports(
    locked: bool,
    control: string,
    policy: Result<Policy>,
    main: nat -> Result<string>,
    archive: Archive,
    ancestor: (string, string) -> Result<bool>,
    verifyTarget: string -> bool,
    releaseCommit: string -> Result<bool>,
    intervalSelection: (string, string) -> Result<Selection>,
    intervalVerification: Option<(string, string, seq<string>) -> Result<W.Workload>>,
    explain: Explain,
    runState: (nat, Run) -> Result<RunState>,
    resultFor: (Request, Run) -> Result<Receipt>,
    oldRunsTerminal: Result<bool>,
    load: Network<Data>,
    delivery: nat -> Surroundings<Data>)

  /** The transports are faithful, and a policy read for admission is the one recorded for replay. */
  ghost predicate Usable(ports: Ports, truth: Archive, genuine: Authenticate<Data>) {
    && Faithful(ports.load, genuine)
    && (forall n :: Trusty(ports.delivery(n), genuine))
    && Agrees(ports.archive, truth)
    && (ports.policy.Success? ==> ports.archive(ports.control) == Some(ports.policy.value))
  }

  /** Whatever an archive can authenticate is what was recorded. */
  ghost predicate Agrees(archive: Archive, truth: Archive) {
    forall control :: archive(control).Some? ==> archive(control) == truth(control)
  }

  // ---------------------------------------------------------------- event identities and replay

  function FenceId(epoch: string, generation: nat): string {
    epoch + ":" + Decimal(generation)
  }

  function EventOf(s: State, data: Data): Event<Data> {
    Event(FenceId(s.epoch, s.generation), s.epoch, s.generation, data)
  }

  /** No applied event has taken the name of a fence still to come, as a resume command could. */
  ghost predicate Unnamed(s: State) {
    forall n: nat | s.generation <= n :: FenceId(s.epoch, n) !in s.events
  }

  /** Then whatever the reducer would do with the data, it does with its event. */
  lemma FenceWorks(s: State, data: Data, policy: Policy)
    requires Unnamed(s)
    ensures var t := Transition(s, data, policy);
      Reduce(s, EventOf(s, data), policy) == if t.Failure? then Failure else Success(Stamp(t.value, EventOf(s, data)))
    ensures Reduce(s, EventOf(s, data), policy).Success? ==> Unnamed(Reduce(s, EventOf(s, data), policy).value)
  {
    hide Transition;
    TransitionKeepsStamp(s, data, policy);
    var r := Reduce(s, EventOf(s, data), policy);
    if r.Success? {
      forall n: nat | r.value.generation <= n ensures FenceId(s.epoch, n) !in r.value.events {
        if FenceId(s.epoch, n) == FenceId(s.epoch, s.generation) {
          assert FenceId(s.epoch, n)[|s.epoch + ":"|..] == Decimal(n);
          assert FenceId(s.epoch, s.generation)[|s.epoch + ":"|..] == Decimal(s.generation);
          DecimalIsUnique(n, s.generation);
        }
      }
    }
  }

  function ResumeOf(s: State, command: Command): Event<Data> {
    Event("resume:" + command.id, s.epoch, s.generation, Resume(command.suites, command.reason))
  }

  function Reconstruct(events: Log, configured: Option<string>, archive: Archive): Result<State> {
    var epoch := if events != [] then Some(events[0].epoch) else configured;
    if epoch.None? || epoch.value == "" || (configured.Some? && configured != epoch) then Failure
    else Replay(NewState(epoch.value), events, archive)
  }

  /** The epoch is the log's own, or the configured one while the log is empty; a configured epoch has to agree. */
  lemma {:induction false} ReconstructMeans(events: Log, configured: Option<string>, archive: Archive)
    ensures var r := Reconstruct(events, configured, archive);
      && (events == [] ==>
            && (r.Success? <==> configured.Some? && configured.value != "")
            && (r.Success? ==> r.value == NewState(configured.value)))
      && (events != [] ==>
            if events[0].epoch == "" || (configured.Some? && configured.value != events[0].epoch) then r.Failure?
            else r == Replay(NewState(events[0].epoch), events, archive))
  {
  }

  lemma {:induction false} ReplayUnderTruth(s: State, events: Log, archive: Archive, truth: Archive)
    requires Agrees(archive, truth) && Replay(s, events, archive).Success?
    ensures Replay(s, events, truth) == Replay(s, events, archive)
    decreases |events|
  {
    hide Reduce;
    if events != [] {
      ReplayUnderTruth(Step(s, events[0], archive).value, events[1..], archive, truth);
    }
  }

  ghost predicate Replayable(log: Log, truth: Archive) {
    log != [] ==> Replay(NewState(log[0].epoch), log, truth).Success?
  }

  /** The log ends the request's chances of being claimed again. */
  ghost predicate SpentIn(log: Log, id: string, truth: Archive) {
    log != [] && var r := Replay(NewState(log[0].epoch), log, truth); r.Success? && Spent(r.value, id)
  }

  /** Everything stored or intended replays, and every execution ever handed out is spent in what is committed. */
  ghost predicate Intact(w: World<Data>, issued: seq<string>, truth: Archive) {
    && Replayable(Loaded(w), truth)
    && (forall id <- issued :: SpentIn(Committed(w), id, truth))
    && NoRepeats(issued)
  }

  lemma ReplayablePrefix(a: Log, b: Log, truth: Archive)
    requires a <= b && Replayable(b, truth)
    ensures Replayable(a, truth)
    ensures forall id | SpentIn(a, id, truth) :: SpentIn(b, id, truth)
  {
    hide Replay, Spent;
    if a != [] {
      var rest := b[|a|..];
      assert b == a + rest;
      ReplaySplit(NewState(a[0].epoch), a, rest, truth);
      forall id | SpentIn(a, id, truth) ensures SpentIn(b, id, truth) {
        SpentForEver(Replay(NewState(a[0].epoch), a, truth).value, rest, truth, Replay(NewState(a[0].epoch), b, truth).value, id);
      }
    }
  }

  /** Anything that only commits or drops what was intended keeps the journal intact. */
  lemma IntactStays(before: World<Data>, now: World<Data>, log: Log, issued: seq<string>, truth: Archive)
    requires Intact(before, issued, truth) && Within(before, now, log) && Replayable(log, truth)
    ensures Intact(now, issued, truth)
  {
    hide Replayable, SpentIn, NoRepeats;
    ReplayablePrefix(Loaded(now), log, truth);
    ReplayablePrefix(Committed(now), log, truth);
    ReplayablePrefix(Committed(before), Committed(now), truth);
  }

  lemma IntactInitially(truth: Archive)
    ensures Intact(Initial(), [], truth)
  {
  }

  /** The event carries the fence of this state, so it cannot have been applied before. */
  predicate Next(s: State, e: Event<Data>) {
    e.epoch == s.epoch && e.generation == s.generation
  }

  lemma FencedIsNew(log: Log, epoch: string, s: State, e: Event<Data>, policy: Policy)
    requires Sound(log, epoch, s) && Next(s, e) && Reduce(s, e, policy).Success?
    ensures e !in log && e.id !in s.events
  {
    hide Transition;
    SoundIsFenced(log, epoch, s);
    forall i | 0 <= i < |log| ensures log[i] != e {
    }
    forall id | id in s.events ensures s.events[id] != e {
      assert s.events[id] in log;
    }
  }

  /** Reducing the next event is what the journal replays to once that event is committed. */
  lemma NextReplays(log: Log, configured: Option<string>, archive: Archive, truth: Archive,
                                       s: State, e: Event<Data>, policy: Policy)
    requires Reconstruct(log, configured, archive) == Success(s) && Agrees(archive, truth)
    requires Next(s, e) && Reduce(s, e, policy).Success?
    requires e.data.Enqueue? || e.data.Admit? ==> PolicyFor(e.data, archive) == Some(policy)
    ensures e !in log && e.id !in s.events && NewId(log, e.id)
    ensures Reconstruct(log + [e], configured, archive) == Reduce(s, e, policy)
    ensures Replayable(log + [e], truth)
  {
    hide Transition, Sound, Replay;
    var epoch := if log != [] then log[0].epoch else configured.value;
    RepeatsVanish(log, epoch, archive);
    FencedIsNew(Distinct(log), epoch, s, e, policy);
    SoundIsFenced(Distinct(log), epoch, s);
    DistinctMembers(log);
    forall i | 0 <= i < |log| ensures log[i].id != e.id {
      assert log[i] in Distinct(log);
      var k :| 0 <= k < |Distinct(log)| && Distinct(log)[k] == log[i];
    }
    ReplaySnoc(NewState(epoch), log, e, archive);
    PolicyIsIrrelevant(s, e, policy, archive);
    ReplayUnderTruth(NewState(epoch), log + [e], archive, truth);
    assert (log + [e])[0].epoch == epoch;
  }

  lemma PolicyIsIrrelevant(s: State, e: Event<Data>, policy: Policy, archive: Archive)
    requires e.data.Enqueue? || e.data.Admit? ==> PolicyFor(e.data, archive) == Some(policy)
    ensures Step(s, e, archive) == Reduce(s, e, policy)
  {
    hide ObserveMain, EnqueueExplicit, AdmitBatch, ClaimExecution, RecordResult, AdvanceCursor, ResumeDebt;
  }

  lemma SpentWhen(log: Log, configured: Option<string>, archive: Archive, truth: Archive, s: State, id: string)
    requires Reconstruct(log, configured, archive) == Success(s) && Agrees(archive, truth) && log != []
    ensures SpentIn(log, id, truth) <==> Spent(s, id)
  {
    hide Replay, Spent;
    ReplayUnderTruth(NewState(log[0].epoch), log, archive, truth);
  }

  /** One more event spends the request in the log, and what was spent stays spent. */
  lemma SpentNow(known: Log, now: Log, configured: Option<string>, archive: Archive, truth: Archive, before: State, s: State, id: string)
    requires Reconstruct(known, configured, archive) == Success(before) && Reconstruct(now, configured, archive) == Success(s)
    requires known <= now && now != [] && Replayable(now, truth) && Agrees(archive, truth)
    requires !Spent(before, id) && Spent(s, id)
    ensures !SpentIn(known, id, truth) && SpentIn(now, id, truth)
    ensures forall other | SpentIn(known, other, truth) :: SpentIn(now, other, truth)
  {
    hide Replay, Spent, Reconstruct;
    if known != [] {
      SpentWhen(known, configured, archive, truth, before, id);
    }
    NothingSpentInNothing(known, id, truth);
    ReplayablePrefix(known, now, truth);
    SpentWhen(now, configured, archive, truth, s, id);
  }

  lemma ClaimIsAllowed(s: State, id: string, run: Run, policy: Policy, log: Log, c: Call)
    requires JustifiedIn(s, Claim(id, run), log, c)
    ensures Fresh(run) ==> Transition(s, Claim(id, run), policy).Success?
  {
  }

  /** The active batch of a replayed state is a known request that has left the queue. */
  lemma ActiveIsBooked(log: Log, configured: Option<string>, archive: Archive, s: State)
    requires Reconstruct(log, configured, archive) == Success(s) && s.active.Some?
    ensures var id := s.active.value.requestId; id in s.requests && id !in s.queue && s.requests[id].id == id
    ensures s.active.value.claim.None? || s.active.value.claim == Some(s.active.value.executorRun)
  {
    hide Replay, Sound;
    var epoch := if log != [] then log[0].epoch else configured.value;
    RepeatsVanish(log, epoch, archive);
    ActiveHasLeftQueue(Distinct(log), epoch, s);
    ActiveIsOwned(Distinct(log), epoch, s);
  }

  lemma ActiveIsOwned(log: Log, epoch: string, s: State)
    requires Sound(log, epoch, s) && s.active.Some?
    ensures s.active.value.claim.None? || s.active.value.claim == Some(s.active.value.executorRun)
  {
  }

  /** A first claim turns a request that could still be executed into one that never can be again. */
  lemma ClaimSpends(s: State, id: string, executor: Run, policy: Policy, t: State)
    requires Unclaimed(s, id) && EventOf(s, Claim(id, executor)).id !in s.events
    requires Reduce(s, EventOf(s, Claim(id, executor)), policy) == Success(t)
    ensures !Spent(s, id) && (id in t.requests && id !in t.queue ==> Spent(t, id))
    ensures t.active == Some(Active(id, executor, Some(executor)))
    ensures t.requests == s.requests && t.queue == s.queue && t.results == s.results && Settling(s, t)
  {
  }

  // ---------------------------------------------------------------- choosing a batch

  datatype Verdict = Execute | Idle | Waiting

  datatype Answer = Answer(action: Verdict, request: Option<Request>, state: State)

  datatype Choice = Stop(action: Verdict) | Take(request: Request, policy: Policy)

  predicate CandidateFinished(s: State, target: string) {
    exists id <- s.requests :: s.requests[id].kind == Candidate && s.requests[id].target == target && id in s.results
  }

  /** A release tip holds automatic admission back until a candidate batch has finished for it. */
  function ReleaseHold(s: State, ports: Ports, latest: string): Result<bool> {
    var release :- ports.releaseCommit(latest);
    Success(release && !CandidateFinished(s, latest))
  }

  function AutomaticSelection(s: State, ports: Ports, policy: Policy, latest: string): Result<Selection> {
    var selection :- if s.processed.None? then Select(policy, Elements(policy.suites), {"bootstrap requires full"})
                     else if s.processed.value == latest then Select(policy, {}, {"explicit debt recovery without new changes"})
                     else ports.intervalSelection(s.processed.value, latest);
    RequiredSelection(s, policy, selection)
  }

  /** Executable debt is always verified in full. */
  function AutomaticWorkload(s: State, ports: Ports, latest: string, suites: seq<string>): Result<Option<W.Workload>> {
    if s.processed.None? || ports.intervalVerification.None? then Success(None)
    else
      var chosen :- ports.intervalVerification.value(s.processed.value, latest, suites);
      Success(Some(chosen + map suite | suite in ExecutableDebt(s) :: W.Full))
  }

  function AutomaticBatch(s: State, ports: Ports, policy: Policy, run: Run, latest: string): Result<Request> {
    var selection :- AutomaticSelection(s, ports, policy, latest);
    var workload :- AutomaticWorkload(s, ports, latest, selection.suites);
    MakeRequest(policy, "batch:" + s.epoch + ":" + Decimal(s.generation), if s.processed.None? then Bootstrap else Auto,
                s.processed, latest, ports.control, selection, run, ports.explain, workload, None)
  }

  function NextBatch(s: State, ports: Ports, policy: Policy, run: Run, latest: string): Result<Choice> {
    if s.queue != [] then
      if s.queue[0] !in s.requests then Failure
      else
        var request := s.requests[s.queue[0]];
        var recorded := ports.archive(request.control);
        if recorded.None? then Failure else Success(Take(request, recorded.value))
    else if s.processed == Some(latest) && !s.recoveryRequested then
      Success(Stop(Idle))
    else
      var held :- if s.processed.Some? && s.processed != Some(latest) then ReleaseHold(s, ports, latest) else Success(false);
      if held then Success(Stop(Waiting))
      else
        var request :- AutomaticBatch(s, ports, policy, run, latest);
        Success(Take(request, policy))
  }

  /** Queued requests come first; an automatic batch covers the interval to the newest tip, and yields to a held release. */
  lemma NextBatchMeans(s: State, ports: Ports, policy: Policy, run: Run, latest: string)
    ensures var choice := NextBatch(s, ports, policy, run, latest);
      choice.Success? && choice.value.Take? ==>
        var r := choice.value.request;
        && (s.queue != [] ==>
              s.queue[0] in s.requests && r == s.requests[s.queue[0]] && ports.archive(r.control) == Some(choice.value.policy))
        && (s.queue == [] ==>
              && !Explicit(r.kind) && r.base == s.processed && r.target == latest
              && r.control == ports.control && r.originRun == run && choice.value.policy == policy
              && (r.kind == Bootstrap <==> s.processed.None?)
              && (s.processed == Some(latest) ==> s.recoveryRequested)
              && (s.processed.Some? && s.processed.value != latest ==> ReleaseHold(s, ports, latest) == Success(false)))
    ensures NextBatch(s, ports, policy, run, latest) != Success(Stop(Execute))
    ensures s.queue == [] && s.processed.Some? && s.processed.value != latest && ReleaseHold(s, ports, latest) == Success(true) ==>
      NextBatch(s, ports, policy, run, latest) == Success(Stop(Waiting))
  {
    hide AutomaticBatch, ReleaseHold;
    AutomaticIs(s, ports, policy, run, latest);
  }

  lemma AutomaticIs(s: State, ports: Ports, policy: Policy, run: Run, latest: string)
    ensures var r := AutomaticBatch(s, ports, policy, run, latest);
      r.Success? ==>
        && r.value.kind == (if s.processed.None? then Bootstrap else Auto)
        && r.value.base == s.processed && r.value.target == latest && r.value.control == ports.control && r.value.originRun == run
        && r.value.id == "batch:" + s.epoch + ":" + Decimal(s.generation) && r.value.policy == policy.digest && r.value.retryOf.None?
  {
    hide AutomaticSelection, AutomaticWorkload, RequestSelection;
  }

  /** The automatic batch runs every executable debt, and runs it in full, whatever the interval asks for. */
  lemma AutomaticRunsDebt(s: State, ports: Ports, policy: Policy, run: Run, latest: string, suite: string)
    requires suite in ExecutableDebt(s)
    ensures var r := AutomaticBatch(s, ports, policy, run, latest);
      r.Success? ==> suite in r.value.selection.suites && WorkloadOf(r.value, suite) == W.Full
  {
    hide AutomaticSelection, AutomaticWorkload, RequestSelection, ReleaseHold;
    var r := AutomaticBatch(s, ports, policy, run, latest);
    if r.Success? {
      var selection := AutomaticSelection(s, ports, policy, latest).value;
      SelectionCarriesDebt(s, ports, policy, latest);
      RequestKeepsSuites(policy, if s.processed.None? then Bootstrap else Auto, selection, ports.explain);
      WorkloadIsFull(s, ports, latest, selection.suites, suite);
      assert suite in Elements(r.value.selection.suites);
    }
  }

  /** What the batch has to cover before debts: everything at first, nothing for the same tip, else the interval's suites. */
  ghost predicate Asked(s: State, ports: Ports, policy: Policy, latest: string, suites: set<string>) {
    match s.processed
    case None => suites == Elements(policy.suites)
    case Some(cursor) =>
      if cursor == latest then suites == {}
      else ports.intervalSelection(cursor, latest).Success? && suites == Elements(ports.intervalSelection(cursor, latest).value.suites)
  }

  /** The automatic batch covers what is asked and what is owed, and nothing that the policy's dependencies do not force. */
  lemma AutomaticCovers(s: State, ports: Ports, policy: Policy, run: Run, latest: string)
    ensures var r := AutomaticBatch(s, ports, policy, run, latest);
      r.Success? ==>
        exists asked :: Asked(s, ports, policy, latest, asked)
          && asked <= Elements(r.value.selection.suites)
          && forall c | asked + ExecutableDebt(s) <= c && Closed(policy.dependencies, c) :: Elements(r.value.selection.suites) <= c
  {
    hide AutomaticWorkload, Union, Enumerate, Select, Closure;
    var r := AutomaticBatch(s, ports, policy, run, latest);
    if r.Success? {
      var asked := AskedSelection(s, ports, policy, latest);
      var debt := ExecutableDebt(s);
      var extra := Select(policy, debt, if debt == {} then {} else {CARRY}).value;
      SelectIsExact(policy, debt, if debt == {} then {} else {CARRY});
      var both := [asked, extra];
      UnionMeans(policy, both);
      TwoSuites(asked, extra);
      assert asked in both && extra in both;
      var needed := Union(policy, both).value;
      UnionMeans(policy, [needed]);
      OneSuites(needed);
      assert needed in [needed];
      var chosen := Union(policy, [needed]).value;
      SelectIsExact(policy, Elements(chosen.suites), ports.explain(Elements(chosen.reasons)));
      assert Elements(r.value.selection.suites) == Elements(chosen.suites);
      assert Asked(s, ports, policy, latest, Elements(asked.suites));
    }
  }

  lemma OneSuites(a: Selection)
    ensures AllSuites([a]) == Elements(a.suites)
  {
    assert [a][1..] == [];
    assert AllSuites([a]) == Elements(a.suites) + AllSuites([]);
  }

  lemma AskedSelection(s: State, ports: Ports, policy: Policy, latest: string) returns (asked: Selection)
    requires AutomaticSelection(s, ports, policy, latest).Success?
    ensures Asked(s, ports, policy, latest, Elements(asked.suites))
    ensures AutomaticSelection(s, ports, policy, latest) == RequiredSelection(s, policy, asked)
  {
    hide Enumerate, RequiredSelection;
    if s.processed.None? {
      asked := Select(policy, Elements(policy.suites), {"bootstrap requires full"}).value;
    } else if s.processed.value == latest {
      asked := Select(policy, {}, {"explicit debt recovery without new changes"}).value;
    } else {
      asked := ports.intervalSelection(s.processed.value, latest).value;
    }
  }

  /** The batch that is chosen when nothing waits is one the reducer admits, as long as its identity is new and the tip is the observed one. */
  lemma ChosenIsAdmissible(s: State, ports: Ports, policy: Policy, run: Run, latest: string)
    requires s.queue == [] && WellFormed(policy) && s.pending == Some(latest)
    requires s.active.None? && !s.blocked && Fresh(run)
    requires forall suite <- s.debts :: !s.debts[suite].paused ==> suite in policy.suites
    ensures var choice := NextBatch(s, ports, policy, run, latest);
      choice.Success? && choice.value.Take? && choice.value.request.id !in s.requests ==>
        choice.value.policy == policy && Transition(s, Admit(choice.value.request, run, true, true, true), policy).Success?
  {
    hide AutomaticSelection, AutomaticWorkload, RequestSelection, Transition, WellMade, Rebuilds, ReleaseHold;
    var choice := NextBatch(s, ports, policy, run, latest);
    if choice.Success? && choice.value.Take? && choice.value.request.id !in s.requests {
      var r := choice.value.request;
      AutomaticIs(s, ports, policy, run, latest);
      AutomaticRebuilds(s, ports, policy, run, latest);
      RebuildsMeans(policy, r);
      forall suite | suite in s.debts && !s.debts[suite].paused ensures suite in r.selection.suites && RunsInFull(r, suite) {
        assert suite in ExecutableDebt(s);
        AutomaticRunsDebt(s, ports, policy, run, latest, suite);
        WorkloadMeans(r, suite);
      }
      AutomaticAdmissionMeans(s, Admit(r, run, true, true, true), policy);
    }
  }

  lemma AutomaticRebuilds(s: State, ports: Ports, policy: Policy, run: Run, latest: string)
    ensures var r := AutomaticBatch(s, ports, policy, run, latest); r.Success? ==> Rebuilds(policy, r.value)
  {
    hide AutomaticSelection, AutomaticWorkload, MakeRequest, Rebuilds;
    var r := AutomaticBatch(s, ports, policy, run, latest);
    if r.Success? {
      var selection := AutomaticSelection(s, ports, policy, latest).value;
      MadeRequestsRebuild(policy, "batch:" + s.epoch + ":" + Decimal(s.generation), if s.processed.None? then Bootstrap else Auto,
                          s.processed, latest, ports.control, selection, run, ports.explain,
                          AutomaticWorkload(s, ports, latest, selection.suites).value, None);
    }
  }

  /** When nothing is taken: no news and nothing to resume, or a release tip whose candidate is not settled. */
  lemma NothingTaken(s: State, ports: Ports, policy: Policy, run: Run, latest: string)
    ensures NextBatch(s, ports, policy, run, latest) == Success(Stop(Idle))
      <==> s.queue == [] && s.processed == Some(latest) && !s.recoveryRequested
    ensures NextBatch(s, ports, policy, run, latest) == Success(Stop(Waiting))
      <==> s.queue == [] && s.processed.Some? && s.processed.value != latest
           && ports.releaseCommit(latest) == Success(true)
           && forall id <- s.requests :: s.requests[id].kind == Candidate && s.requests[id].target == latest ==> id !in s.results
    ensures s.queue == [] && s.processed.Some? && s.processed.value != latest && ports.releaseCommit(latest).Failure? ==>
      NextBatch(s, ports, policy, run, latest).Failure?
  {
    hide AutomaticBatch;
  }

  lemma SelectionCarriesDebt(s: State, ports: Ports, policy: Policy, latest: string)
    ensures var selection := AutomaticSelection(s, ports, policy, latest);
      selection.Success? ==> ExecutableDebt(s) <= Elements(selection.value.suites)
  {
    hide Union, Enumerate;
    var debt := ExecutableDebt(s);
    var extra := Select(policy, debt, if debt == {} then {} else {CARRY});
    if extra.Success? && AutomaticSelection(s, ports, policy, latest).Success? {
      forall first | Union(policy, [first, extra.value]).Success?
        ensures debt <= Elements(Union(policy, [first, extra.value]).value.suites)
      {
        UnionMeans(policy, [first, extra.value]);
        assert extra.value in [first, extra.value];
      }
    }
  }

  lemma RequestKeepsSuites(policy: Policy, kind: Kind, selection: Selection, explain: Explain)
    requires kind != Retry
    ensures var r := RequestSelection(policy, kind, selection, explain);
      r.Success? ==> Elements(selection.suites) <= Elements(r.value.suites)
  {
    hide Union, Enumerate;
    UnionMeans(policy, [selection]);
    if Union(policy, [selection]).Success? {
      assert selection in [selection];
    }
  }

  /** Without a verification port, or at first, everything runs in full; otherwise as the port says, and debts in full. */
  lemma WorkloadIsAsked(s: State, ports: Ports, policy: Policy, run: Run, latest: string)
    ensures var r := AutomaticBatch(s, ports, policy, run, latest);
      r.Success? ==>
        if s.processed.None? || ports.intervalVerification.None? then r.value.verification.None?
        else
          exists suites ::
            var answer := ports.intervalVerification.value(s.processed.value, latest, suites);
            && answer.Success? && r.value.verification.Some?
            && forall suite | suite in r.value.selection.suites ::
                 && suite in r.value.verification.value
                 && (if suite in s.debts && !s.debts[suite].paused then r.value.verification.value[suite] == W.Full
                     else suite in answer.value && r.value.verification.value[suite] == answer.value[suite])
  {
    hide AutomaticSelection, RequestSelection;
    var r := AutomaticBatch(s, ports, policy, run, latest);
    if r.Success? && s.processed.Some? && ports.intervalVerification.Some? {
      var suites := AutomaticSelection(s, ports, policy, latest).value.suites;
      var answer := ports.intervalVerification.value(s.processed.value, latest, suites);
      assert answer.Success? && r.value.verification == Some(answer.value + map suite | suite in ExecutableDebt(s) :: W.Full);
      assert r.value.verification.value.Keys == Elements(r.value.selection.suites);
    }
  }

  lemma WorkloadIsFull(s: State, ports: Ports, latest: string, suites: seq<string>, suite: string)
    requires suite in ExecutableDebt(s)
    ensures var w := AutomaticWorkload(s, ports, latest, suites);
      w.Success? && w.value.Some? ==> suite in w.value.value && w.value.value[suite] == W.Full
  {
  }

  /** The request at the front of the queue. */
  function Foremost(s: State): Request
    requires s.queue != [] && s.queue[0] in s.requests
  {
    s.requests[s.queue[0]]
  }

  /** A request with suites is at the front of the queue, and nothing active or blocked is in its way. */
  ghost predicate Waits(s: State, archive: Archive) {
    && s.queue != [] && s.queue[0] in s.requests && Foremost(s).selection.suites != []
    && s.active.None? && !s.blocked && QueueFits(s, archive)
  }

  /** A queued request can be executed now: nothing is in its way, and every port allows it. */
  ghost predicate Executable(s: State, ports: Ports, run: Run) {
    && s.queue != [] && s.queue[0] in s.requests && Foremost(s).selection.suites != []
    && s.active.None? && !s.blocked && Unnamed(s)
    && ports.policy.Success?
    && ports.main(0).Success? && ExactSha(ports.main(0).value) && Descends(ports, s.pending, ports.main(0).value)
    && ports.main(1).Success? && ExactSha(ports.main(1).value) && Descends(ports, Some(ports.main(0).value), ports.main(1).value)
    && Permitted(s, Foremost(s), ports, run)
  }

  lemma FoundFits(log: Log, configured: Option<string>, archive: Archive, s: State)
    requires Reconstruct(log, configured, archive) == Success(s)
    ensures QueueFits(s, archive)
  {
    hide Replay;
    WaitingFits(NewState(if log != [] then log[0].epoch else configured.value), log, archive);
  }

  lemma HeadIsNext(s: State, ports: Ports, policy: Policy, run: Run, latest: string)
    requires Waits(s, ports.archive)
    ensures var recorded := ports.archive(Foremost(s).control);
      && recorded.Some? && Foremost(s).selection.suites != [] && NextBatch(s, ports, policy, run, latest) == Success(Take(Foremost(s), recorded.value))
      && (Permitted(s, Foremost(s), ports, run) ==>
            Transition(s, Admit(Foremost(s), run, true, true, true), recorded.value).Success?)
  {
    hide Rebuilds, AutomaticBatch;
    assert s.queue[0] in s.queue;
  }

  /** What makes a queued request executable still does after the tip was observed. */
  lemma TipLeavesExecutable(s: State, t: State, ports: Ports, run: Run)
    requires Executable(s, ports, run) && QueueFits(s, ports.archive)
    requires t == s.(pending := Some(ports.main(0).value), generation := t.generation, events := t.events)
    ensures !t.blocked && t.active.None? && Waits(t, ports.archive)
    ensures Foremost(t) == Foremost(s) && Permitted(t, Foremost(t), ports, run)
    ensures ports.main(1).Success? && ExactSha(ports.main(1).value) && Descends(ports, t.pending, ports.main(1).value)
  {
    hide Rebuilds;
    TipIsAside(s, t, ports, run);
  }

  lemma ExecutableIsObserved(s: State, ports: Ports, run: Run)
    requires Executable(s, ports, run)
    ensures ports.policy.Success? && Unnamed(s)
    ensures ports.main(0).Success? && ExactSha(ports.main(0).value) && Descends(ports, s.pending, ports.main(0).value)
  {
  }

  /** An observed tip changes nothing about what waits. */
  lemma TipIsAside(s: State, t: State, ports: Ports, run: Run)
    requires t == s.(pending := t.pending, generation := t.generation, events := t.events)
    ensures Waits(t, ports.archive) <==> Waits(s, ports.archive)
    ensures Waits(s, ports.archive) ==>
      Foremost(t) == Foremost(s) && (Permitted(t, Foremost(t), ports, run) <==> Permitted(s, Foremost(s), ports, run))
  {
    hide Rebuilds;
  }

  // ---------------------------------------------------------------- what may be written

  /** One call: who makes it, with what arguments and observations, and the history it found. */
  datatype Call = Call(ports: Ports, run: Run, epoch: Option<string>, explicit: Option<Request>, resume: Option<Command>, allow: bool, base: Log)

  /**
   * What may be written after `log`, in the state that log replays to: every event is backed by the call's own
   * observations of that very batch, tip and request.
   */
  ghost predicate Justified(data: Data, log: Log, c: Call) {
    var replayed := Reconstruct(log, c.epoch, c.ports.archive);
    replayed.Success? && JustifiedIn(replayed.value, data, log, c)
  }

  ghost predicate JustifiedIn(s: State, data: Data, log: Log, c: Call) {
    match data
    case Observe(target, descends) =>
      && descends
      && (c.ports.main(0) == Success(target) || c.ports.main(1) == Success(target))
      && (s.pending.Some? ==> c.ports.ancestor(s.pending.value, target) == Success(true))
    case Enqueue(request) => c.explicit == Some(request)
    case Resume(suites, reason) => c.resume.Some? && c.resume.value.suites == suites && c.resume.value.reason == reason
    case Claim(id, executor) =>
      && s.active == Some(Active(id, executor, None))
      && (|| c.ports.runState(0, executor) == Success(Terminal)
          || (c.allow && executor == c.run
              && (c.ports.runState(0, executor) == Success(Running) || c.ports.runState(1, executor) == Success(Running))))
    case Report(o) =>
      && IsActive(s, o.requestId) && s.active.value.executorRun == o.run
      && c.ports.runState(0, o.run) == Success(Terminal)
      && Supported(s.requests[o.requestId], o, log, c)
    case Advance(id) => IsActive(s, id) && c.ports.runState(0, s.active.value.executorRun) == Success(Terminal)
    case Admit(request, executor, complete, ancestor, terminal) =>
      && c.allow && executor == c.run && complete && ancestor && terminal
      && Chosen(s, request, c)
      && c.ports.verifyTarget(request.target)
      && c.ports.runState(1, executor) == Success(Running)
      && (request.base.Some? ==> c.ports.ancestor(request.base.value, request.target) == Success(true))
      && (s.processed.None? ==> c.ports.oldRunsTerminal == Success(true))
    case _ => false
  }

  /** The tip is the first, the same, or a descendant according to the ancestor port. */
  predicate Descends(ports: Ports, tip: Option<string>, latest: string) {
    tip.None? || tip == Some(latest) || ports.ancestor(tip.value, latest) == Success(true)
  }

  lemma SereneAt(ports: Ports, comments: seq<Comment<Data>>, n: nat)
    ensures Serene(ports, comments) ==> Flawless(ports.delivery(n), comments)
  {
  }

  /** Every lock is held and every transport works while these are the comments. */
  ghost predicate Serene(ports: Ports, comments: seq<Comment<Data>>) {
    && ports.locked
    && Unhindered(ports.load) && AllAuthentic(comments, ports.load.auth)
    && forall n :: Flawless(ports.delivery(n), comments)
  }

  /** What admission asks of the outside for this request, answered as it wishes. */
  predicate Permitted(s: State, request: Request, ports: Ports, run: Run) {
    && ports.verifyTarget(request.target)
    && (s.processed.None? ==> ports.oldRunsTerminal == Success(true))
    && ports.runState(1, run) == Success(Running)
    && (request.base.Some? ==> ports.ancestor(request.base.value, request.target) == Success(true))
    && Fresh(run)
  }

  /** The batch is the one the call's observations choose in this state. */
  ghost predicate Chosen(s: State, request: Request, c: Call) {
    && c.ports.policy.Success? && c.ports.main(1).Success?
    && var choice := NextBatch(s, c.ports, c.ports.policy.value, c.run, c.ports.main(1).value);
    && choice.Success? && choice.value.Take? && choice.value.request == request
  }

  /**
   * A result repeats the authenticated outcomes of this request and run, or reports its suites missing; the latter
   * only when the loss is authenticated, or this call itself just made the claim that nobody had made.
   */
  ghost predicate Supported(r: Request, o: Observation, log: Log, c: Call) {
    && r.id == o.requestId && r.target == o.target && r.policy == o.policy
    && (|| (ReportsLoss(r, o) && o.reference == "missing:" + r.id
            && (c.ports.resultFor(r, o.run) == Success(Lost) || JustClaimed(log, r.id, o.run, c)))
        || (r.selection.suites == [] && o.outcomes == map[] && o.reference == "not-required:" + r.id)
        || c.ports.resultFor(r, o.run) == Success(Ready(o.outcomes, o.reference)))
  }

  /** What a found receipt says of the terminal run. */
  function ObservationOf(request: Request, executor: Run, receipt: Receipt): Observation {
    Observation(request.id, executor, request.target, request.policy,
                if receipt.Ready? then receipt.outcomes else MissingOutcomes(request),
                if receipt.Ready? then receipt.reference else "missing:" + request.id, true)
  }

  /** The receipt was authenticated for this request and run, or needs no evidence. */
  ghost predicate Backs(request: Request, receipt: Receipt, executor: Run, log: Log, c: Call) {
    || (receipt.Lost? && JustClaimed(log, request.id, executor, c))
    || (request.selection.suites == [] && receipt == Ready(map[], "not-required:" + request.id))
    || c.ports.resultFor(request, executor) == Success(receipt)
  }

  /** The terminal batch can be settled: its claim was never made, or its result, or the loss of it, is authenticated. */
  ghost predicate Evident(s: State, request: Request, ports: Ports)
    requires s.active.Some?
  {
    var a := s.active.value;
    && Fresh(a.executorRun) && request.id !in s.results
    && (|| a.claim.None?
        || request.selection.suites == []
        || ports.resultFor(request, a.executorRun) == Success(Lost)
        || (&& ports.resultFor(request, a.executorRun).Success? && ports.resultFor(request, a.executorRun).value.Ready?
            && Complete(request, ports.resultFor(request, a.executorRun).value)))
  }

  /** The receipt says something permitted of exactly the selected suites. */
  ghost predicate Complete(request: Request, receipt: Receipt)
    requires receipt.Ready?
  {
    && receipt.reference != ""
    && (forall suite :: suite in receipt.outcomes <==> suite in request.selection.suites)
    && (forall suite <- receipt.outcomes :: Sayable(request, suite, receipt.outcomes[suite]))
  }

  /** The active batch is known, its run is over, and it has a result or there is evidence for one. */
  ghost predicate Settleable(s: State, ports: Ports)
    requires s.active.Some?
  {
    var a := s.active.value;
    && ports.runState(0, a.executorRun) == Success(Terminal)
    && (a.requestId in s.requests ==> a.requestId in s.results || Evident(s, s.requests[a.requestId], ports))
  }

  /** The batch is over: its result is on record, and, if it was automatic, the cursor and the debts have followed it. */
  ghost predicate Concluded(s: State, t: State)
    requires s.active.Some?
  {
    var id := s.active.value.requestId;
    && t.active.None? && id in s.requests && id in t.results && t.requests == s.requests && t.queue == s.queue
    && var r, o := s.requests[id], t.results[id];
    if r.kind in {Node, Candidate, Retry} then t.processed == s.processed && t.debts == s.debts
    else t.processed == Some(r.target) && WorksIn(s.debts, t.debts, r, o)
  }

  /** Only what settles a batch changes: its claim, its result and the bookkeeping of events. */
  predicate Settling(s: State, t: State) {
    t == s.(active := t.active, results := t.results, events := t.events, generation := t.generation)
  }

  ghost predicate JustClaimed(log: Log, id: string, run: Run, c: Call) {
    |log| > |c.base| && Last(log).data == Claim(id, run)
  }

  /** Everything beyond the history the call found is justified where it stands. */
  ghost predicate Accounted(c: Call, log: Log) {
    forall i | |c.base| <= i < |log| :: Justified(log[i].data, log[..i], c)
  }

  lemma AccountedMore(c: Call, log: Log, now: Log, e: Event<Data>)
    requires Accounted(c, log)
    requires now <= log || (now <= log + [e] && Justified(e.data, log, c))
    ensures Accounted(c, now)
  {
    forall i | |c.base| <= i < |now| ensures Justified(now[i].data, now[..i], c) {
      if i < |log| {
        assert now[i] == log[i] && now[..i] == log[..i];
      } else {
        assert now[i] == e && now[..i] == log;
      }
    }
  }

  // ---------------------------------------------------------------- truthful ancestry

  /** What the ancestry port affirms is so. */
  ghost predicate Truthful(ports: Ports, anc: Ancestry) {
    forall a, b | ports.ancestor(a, b) == Success(true) :: anc(a, b)
  }

  lemma {:induction false} HonestPart(a: Log, b: Log, anc: Ancestry)
    requires a <= b && Honest(b, anc)
    ensures Honest(a, anc)
    decreases |b|
  {
    if a != b {
      assert a <= Front(b);
      HonestPart(a, Front(b), anc);
    }
  }

  lemma {:induction false} ReplaysToTip(log: Log, configured: Option<string>, archive: Archive, s: State)
    requires UniqueIds(log) && Reconstruct(log, configured, archive) == Success(s)
    ensures s.pending == MainTip(log)
  {
    hide Replay, MainTip;
    RepeatsVanish(log, if log != [] then log[0].epoch else configured.value, archive);
    NothingToDrop(log);
  }

  /** A justified observation descends from the tip the log replays to. */
  lemma {:induction false} ObservedDescends(c: Call, log: Log, data: Data, anc: Ancestry)
    requires Truthful(c.ports, anc) && UniqueIds(log) && Justified(data, log, c) && data.Observe?
    ensures MainTip(log).Some? ==> anc(MainTip(log).value, data.target)
  {
    hide Reconstruct, MainTip;
    ReplaysToTip(log, c.epoch, c.ports.archive, Reconstruct(log, c.epoch, c.ports.archive).value);
  }

  lemma AccountedPart(c: Call, a: Log, b: Log)
    requires a <= b && Accounted(c, b)
    ensures Accounted(c, a)
  {
    forall i | |c.base| <= i < |a| ensures Justified(a[i].data, a[..i], c) {
      assert a[i] == b[i] && a[..i] == b[..i];
    }
  }

  /** With a truthful ancestry port, what a call writes keeps the log's ancestry assertions true. */
  lemma {:induction false} CallsStayHonest(c: Call, log: Log, anc: Ancestry)
    requires Truthful(c.ports, anc) && Accounted(c, log) && UniqueIds(log)
    requires c.base <= log && Honest(c.base, anc)
    ensures Honest(log, anc)
    decreases |log|
  {
    hide Justified, UniqueIds, MainTip, Accounted, Truthful, Honest;
    if log != c.base {
      var front, last := Front(log), Last(log);
      assert log == front + [last] && c.base <= front;
      AccountedPart(c, front, log);
      UniquePart(front, log);
      CallsStayHonest(c, front, anc);
      LastIsJustified(c, front, last);
      if last.data.Observe? {
        ObservedDescends(c, front, last.data, anc);
      }
      HonestMore(front, last, anc);
    }
  }

  lemma LastIsJustified(c: Call, log: Log, e: Event<Data>)
    requires Accounted(c, log + [e]) && |c.base| <= |log|
    ensures Justified(e.data, log, c)
  {
    hide Justified;
    assert (log + [e])[|log|] == e && (log + [e])[..|log|] == log;
  }

  lemma {:induction false} HonestMore(log: Log, e: Event<Data>, anc: Ancestry)
    requires Honest(log, anc)
    requires e.data.Observe? && MainTip(log).Some? ==> anc(MainTip(log).value, e.data.target)
    ensures Honest(log + [e], anc)
  {
    hide MainTip;
    Snoc(log, e);
  }

  datatype Opening = Opening(events: Log, latest: string, policy: Policy)

  /** Shared by every controller of one journal: which executions have been handed out so far. */
  class Ledger {
    ghost const truth: Archive
    ghost var issued: seq<string>

    constructor (ghost truth: Archive)
      ensures this.truth == truth && issued == []
    {
      this.truth := truth;
      issued := [];
    }
  }

  class Controller {
    const journal: Journal<Data>
    const ledger: Ledger
    const run: Run
    const epoch: Option<string>
    var state: State

    /** Holds between any two calls, whatever failed or crashed before. */
    ghost predicate Valid()
      reads this, journal, journal.store, ledger
    {
      && journal.Valid()
      && Intact(journal.store.world, ledger.issued, ledger.truth)
    }

    /** The controller's state is exactly what the committed journal replays to. */
    ghost predicate Synced(archive: Archive)
      reads this, journal, journal.store, ledger
    {
      && Valid()
      && journal.store.world.checkpoint.pending.None?
      && Reconstruct(Committed(journal.store.world), epoch, archive) == Success(state)
    }

    /** Nothing stands in the way of the next event. */
    ghost predicate Poised()
      reads this, journal, journal.store
    {
      Readable(journal.store.world) && Unnamed(state)
    }

    constructor (journal: Journal<Data>, ledger: Ledger, run: Run, epoch: Option<string>)
      requires journal.Valid() && Intact(journal.store.world, ledger.issued, ledger.truth)
      ensures Valid() && this.journal == journal && this.ledger == ledger && this.run == run && this.epoch == epoch
    {
      this.journal, this.ledger, this.run, this.epoch := journal, ledger, run, epoch;
      state := NewState("");
    }

    /** Folds the reducer over a loaded history. */
    method Rebuild(events: Log, archive: Archive) returns (r: Result<State>)
      ensures r == Reconstruct(events, epoch, archive)
    {
      hide Reduce;
      var first := if events != [] then Some(events[0].epoch) else epoch;
      if epoch.Some? && epoch != first {
        return Failure;
      }
      if first.None? || first.value == "" {
        return Failure;
      }
      var s := NewState(first.value);
      assert events[0..] == events;
      for i := 0 to |events|
        invariant Replay(NewState(first.value), events, archive) == Replay(s, events[i..], archive)
      {
        assert events[i..][1..] == events[i + 1..];
        var policy := PolicyFor(events[i].data, archive);
        if policy.None? {
          return Failure;
        }
        s :- Apply(s, events[i], policy.value);
      }
      return Success(s);
    }
  
    /** Validates one event, appends it, and adopts the journal's answer. Nothing escapes on an uncertain write. */
    method Submit(event: Event<Data>, policy: Policy, at: Surroundings<Data>, archive: Archive) returns (ok: bool)
      requires Synced(archive) && Agrees(archive, ledger.truth) && Trusty(at, journal.store.genuine)
      requires Next(state, event)
      requires event.data.Enqueue? || event.data.Admit? ==> PolicyFor(event.data, archive) == Some(policy)
      modifies this`state, journal`verified, journal.store
      ensures Valid()
      ensures old(Committed(journal.store.world)) <= Committed(journal.store.world)
      ensures old(journal.store.trace) <= journal.store.trace
      ensures Loaded(journal.store.world)
        <= old(Committed(journal.store.world)) + (if Reduce(old(state), event, policy).Success? then [event] else [])
      ensures ok ==> Synced(archive)
      ensures ok ==> Reduce(old(state), event, policy) == Success(state)
      ensures ok ==> Committed(journal.store.world) == old(Committed(journal.store.world)) + [event]
      ensures ok ==> event.id !in old(state).events && event !in old(Committed(journal.store.world))
      ensures ok ==> Readable(journal.store.world)
      ensures
        && old(Readable(journal.store.world)) && Reduce(old(state), event, policy).Success?
        && Smooth(at.before, at.prepare, at.fate, at.after, journal.store.world.comments)
        ==> ok
    {
      hide Replay, Reduce, Reconstruct, Intact, Replayable, Within, Smooth, Readable;
      ReducedHasId(state, event, policy);
      var expected := Reduce(state, event, policy);
      if expected.Failure? {
        return false;
      }
      ghost var known := Committed(journal.store.world);
      ghost var before := journal.store.world;
      NextReplays(known, epoch, archive, ledger.truth, state, event, policy);
      var appended := journal.Append(event, at.before, at.prepare, at.fate, at.after);
      WithinIs(before, journal.store.world, known + [event]);
      IntactStays(before, journal.store.world, known + [event], ledger.issued, ledger.truth);
      if appended.Failure? {
        return false;
      }
      var committed := Rebuild(appended.value, archive);
      if committed != expected {
        return false;
      }
      state := committed.value;
      return true;
    }

    lemma FenceIsFresh(e: Event<Data>, policy: Policy, archive: Archive)
      requires Synced(archive) && Next(state, e)
      ensures Reduce(state, e, policy).Success? ==> e.id !in state.events
    {
      hide Replay, Sound, Transition;
      var log := Committed(journal.store.world);
      var first := if log != [] then log[0].epoch else epoch.value;
      RepeatsVanish(log, first, archive);
      if Reduce(state, e, policy).Success? {
        FencedIsNew(Distinct(log), first, state, e, policy);
      }
    }

    /** `_persist`: the event identity is the fence itself. */
    method Persist(data: Data, policy: Policy, at: Surroundings<Data>, archive: Archive, ghost call: Call) returns (ok: bool)
      requires Synced(archive) && Agrees(archive, ledger.truth) && Trusty(at, journal.store.genuine)
      requires data.Enqueue? || data.Admit? ==> PolicyFor(data, archive) == Some(policy)
      requires Accounted(call, Loaded(journal.store.world))
      requires call.ports.archive == archive && call.epoch == epoch
      requires Reduce(state, EventOf(state, data), policy).Success? ==> JustifiedIn(state, data, Committed(journal.store.world), call)
      modifies this`state, journal`verified, journal.store
      ensures Valid() && Accounted(call, Loaded(journal.store.world))
      ensures old(Committed(journal.store.world)) <= Committed(journal.store.world)
      ensures old(journal.store.trace) <= journal.store.trace
      ensures ok ==> Synced(archive)
      ensures ok ==> Reduce(old(state), old(EventOf(state, data)), policy) == Success(state)
      ensures ok ==> Committed(journal.store.world) == old(Committed(journal.store.world)) + [old(EventOf(state, data))]
      ensures ok ==> old(EventOf(state, data).id !in state.events && EventOf(state, data) !in Committed(journal.store.world))
      ensures ok ==> Readable(journal.store.world) && (old(Unnamed(state)) ==> Unnamed(state))
      ensures old(Poised()) && Flawless(at, journal.store.world.comments) && Transition(old(state), data, policy).Success? ==> ok
    {
      hide Reduce, Replay, Reconstruct, Intact, Accounted, JustifiedIn, Smooth, Readable, Unnamed;
      if Unnamed(state) {
        FenceWorks(state, data, policy);
      }
      if !at.locked {
        return false;
      }
      ghost var known, e := Committed(journal.store.world), EventOf(state, data);
      assert Loaded(journal.store.world) == known;
      ok := Submit(EventOf(state, data), policy, at, archive);
      AccountedMore(call, known, Loaded(journal.store.world), e);
    }

    /** Commits the first claim of the active batch in this run, and only then hands out its execution. */
    method ClaimActive(request: Request, policy: Policy, at: Surroundings<Data>, archive: Archive, ghost call: Call) returns (r: Result<Answer>)
      requires Synced(archive) && Agrees(archive, ledger.truth) && Trusty(at, journal.store.genuine)
      requires Unclaimed(state, request.id)
      requires call.ports.archive == archive && call.epoch == epoch && Accounted(call, Loaded(journal.store.world))
      requires JustifiedIn(state, Claim(request.id, run), Committed(journal.store.world), call)
      modifies this`state, journal`verified, journal.store, ledger`issued
      ensures Valid() && Accounted(call, Loaded(journal.store.world))
      ensures old(Committed(journal.store.world)) <= Committed(journal.store.world)
      ensures old(journal.store.trace) <= journal.store.trace
      ensures r.Success? ==> Synced(archive)
      ensures r.Success? ==> r.value == Answer(if request.selection.suites != [] then Execute else Idle, Some(request), state)
      ensures old(Poised()) && Flawless(at, journal.store.world.comments) && Fresh(run) ==> r.Success?
      ensures if r.Success? && r.value.action == Execute
        then Executed(r.value, old(ledger.issued), old(Committed(journal.store.world)))
        else ledger.issued == old(ledger.issued)
    {
      hide Replay, Reduce, Reconstruct, SpentIn, Replayable, JustifiedIn, Accounted, Spent;
      hide History, Records, Legal, After, Cached, Readable, Unnamed, Flawless;
      ghost var before := state;
      ghost var known := Committed(journal.store.world);
      ClaimIsAllowed(before, request.id, run, policy, known, call);
      var ok := Persist(Claim(request.id, run), policy, at, archive, call);
      if !ok {
        return Failure;
      }
      ClaimSpends(before, request.id, run, policy, state);
      ghost var now := Committed(journal.store.world);
      ActiveIsBooked(now, epoch, archive, state);
      SpentNow(known, now, epoch, archive, ledger.truth, before, state, request.id);
      if request.selection.suites != [] {
        ledger.issued := ledger.issued + [request.id];
        return Success(Answer(Execute, Some(request), state));
      }
      return Success(Answer(Idle, Some(request), state));
    }

    /** The evidence for a terminal batch: a claim that was never made is made now, and proves the execution lost. */
    method FindReceipt(request: Request, policy: Policy, ports: Ports, ghost call: Call) returns (r: Result<Receipt>)
      requires Synced(ports.archive) && Usable(ports, ledger.truth, journal.store.genuine) && call.ports == ports && call.epoch == epoch
      requires IsActive(state, request.id) && ports.runState(0, state.active.value.executorRun) == Success(Terminal)
      requires call.base <= Committed(journal.store.world)
      requires Accounted(call, Loaded(journal.store.world))
      modifies this`state, journal`verified, journal.store
      ensures Valid() && Accounted(call, Loaded(journal.store.world))
      ensures old(Committed(journal.store.world)) <= Committed(journal.store.world)
      ensures old(journal.store.trace) <= journal.store.trace
      ensures r.Success? ==> Synced(ports.archive)
      ensures r.Success? ==>
        && IsActive(state, request.id) && state.requests == old(state.requests)
        && state.active.value.executorRun == old(state.active.value.executorRun)
      ensures var executor := old(state.active.value.executorRun);
        if old(state.active.value.claim.None?) then
          r.Success? ==> r.value == Lost && JustClaimed(Committed(journal.store.world), request.id, executor, call)
        else
          && journal.store.world == old(journal.store.world) && state == old(state)
          && r == if request.selection.suites == [] then Success(Ready(map[], "not-required:" + request.id)) else ports.resultFor(request, executor)
      ensures r.Success? ==> Settling(old(state), state) && state.results == old(state.results) && (old(Poised()) ==> Poised())
      ensures r.Success? && old(state.active.value.claim.None?) ==> state.active.value.claim == Some(state.active.value.executorRun)
      ensures
        && old(Poised()) && Serene(ports, journal.store.world.comments) && old(state.active.value.claim.None?)
        && Fresh(old(state.active.value.executorRun))
        ==> r.Success?
    {
      hide Replay, Reduce, Reconstruct, Intact, Accounted, History, Records, Legal, After, Cached, Readable, Unnamed, Flawless;
      var executor := state.active.value.executorRun;
      if state.active.value.claim.None? {
        ghost var before := state;
        ClaimMeans(state, request.id, executor, policy);
        var ok := Persist(Claim(request.id, executor), policy, ports.delivery(3), ports.archive, call);
        if !ok {
          return Failure;
        }
        ClaimSpends(before, request.id, executor, policy, state);
        return Success(Lost);
      }
      if request.selection.suites == [] {
        return Success(Ready(map[], "not-required:" + request.id));
      }
      return ports.resultFor(request, executor);
    }

    /** Makes a found receipt durable. */
    method WriteReport(request: Request, receipt: Receipt, policy: Policy, ports: Ports, ghost call: Call) returns (ok: bool)
      requires Synced(ports.archive) && Usable(ports, ledger.truth, journal.store.genuine) && call.ports == ports && call.epoch == epoch
      requires IsActive(state, request.id) && state.requests[request.id] == request && !receipt.NotYet?
      requires ports.runState(0, state.active.value.executorRun) == Success(Terminal)
      requires Backs(request, receipt, state.active.value.executorRun, Committed(journal.store.world), call)
      requires Accounted(call, Loaded(journal.store.world))
      modifies this`state, journal`verified, journal.store
      ensures Valid() && Accounted(call, Loaded(journal.store.world))
      ensures old(Committed(journal.store.world)) <= Committed(journal.store.world)
      ensures old(journal.store.trace) <= journal.store.trace
      ensures ok ==> Synced(ports.archive) && request.id in state.results
      ensures ok ==> state.active == old(state.active) && Settling(old(state), state) && (old(Poised()) ==> Poised())
      ensures
        && old(Poised()) && Serene(ports, journal.store.world.comments)
        && old(state.active.value.claim == Some(state.active.value.executorRun) && Fresh(state.active.value.executorRun))
        && old(request.id !in state.results) && (receipt.Ready? ==> Complete(request, receipt))
        ==> ok
    {
      hide Replay, Reduce, Reconstruct, Intact, Accounted, History, Records, Legal, After, Cached, Readable, Unnamed, Flawless;
      hide JustifiedIn, Transition, MissingOutcomes, Complete, JustClaimed, Serene, Usable, Backs;
      UsableIs(ports, ledger.truth, journal.store.genuine);
      var observation := ObservationOf(request, state.active.value.executorRun, receipt);
      ReportIsJustified(state, request, receipt, observation, Committed(journal.store.world), call);
      ghost var before := state;
      EvidenceIsInOrder(state, request, receipt, observation, policy);
      ok := Persist(Report(observation), policy, ports.delivery(4), ports.archive, call);
      SereneAt(ports, journal.store.world.comments, 4);
      if ok {
        ReportKeepsBatch(before, observation, policy, state);
      }
    }

    /** Makes the result of a terminal batch durable; `false` means its evidence is not available yet. */
    method RecordOutcome(request: Request, policy: Policy, ports: Ports, ghost call: Call) returns (r: Result<bool>)
      requires Synced(ports.archive) && Usable(ports, ledger.truth, journal.store.genuine) && call.ports == ports && call.epoch == epoch
      requires IsActive(state, request.id) && state.requests[request.id] == request
      requires ports.runState(0, state.active.value.executorRun) == Success(Terminal)
      requires call.base <= Committed(journal.store.world)
      requires Accounted(call, Loaded(journal.store.world))
      modifies this`state, journal`verified, journal.store
      ensures Valid() && Accounted(call, Loaded(journal.store.world))
      ensures old(Committed(journal.store.world)) <= Committed(journal.store.world)
      ensures old(journal.store.trace) <= journal.store.trace
      ensures r.Success? ==>
        && IsActive(state, request.id) && state.active.value.executorRun == old(state.active.value.executorRun)
      ensures r.Success? ==> Synced(ports.archive)
      ensures r == Success(true) ==> request.id in state.results
      ensures r.Success? ==> Settling(old(state), state) && (old(Poised()) ==> Poised())
      ensures
        && old(Poised()) && Serene(ports, journal.store.world.comments) && Evident(old(state), request, ports)
        && old(state.active.value.claim.None? || state.active.value.claim == Some(state.active.value.executorRun))
        ==> r == Success(true)
    {
      hide Replay, Reduce, Reconstruct, Intact, Accounted, History, Records, Legal, After, Cached, Readable, Unnamed, Flawless;
      hide Transition, Complete, JustClaimed, Serene, Usable;
      var receipt :- FindReceipt(request, policy, ports, call);
      if receipt.NotYet? {
        return Success(false);
      }
      if request.selection.suites == [] {
        NothingIsComplete(request);
      }
      var ok := WriteReport(request, receipt, policy, ports, call);
      return if ok then Success(true) else Failure;
    }

    /** The run is over: records its result, unless that is recorded already, and advances. */
    method SettleTerminal(request: Request, policy: Policy, ports: Ports, ghost call: Call) returns (r: Result<Option<Answer>>)
      requires Synced(ports.archive) && Usable(ports, ledger.truth, journal.store.genuine) && call.ports == ports && call.epoch == epoch
      requires IsActive(state, request.id) && state.requests[request.id] == request
      requires state.active.value.claim.None? || state.active.value.claim == Some(state.active.value.executorRun)
      requires ports.runState(0, state.active.value.executorRun) == Success(Terminal)
      requires call.base <= Committed(journal.store.world)
      requires Accounted(call, Loaded(journal.store.world))
      modifies this`state, journal`verified, journal.store
      ensures Valid() && Accounted(call, Loaded(journal.store.world))
      ensures old(Committed(journal.store.world)) <= Committed(journal.store.world)
      ensures old(journal.store.trace) <= journal.store.trace
      ensures r.Success? ==> Synced(ports.archive)
      ensures r.Success? && r.value.None? ==> state.active.None?
      ensures r.Success? && r.value.Some? ==> r.value.value == Answer(Waiting, Some(request), state)
      ensures r == Success(None) ==> Concluded(old(state), state) && (old(Poised()) ==> Poised())
      ensures old(Poised()) && Serene(ports, journal.store.world.comments) && Settleable(old(state), ports) ==> r == Success(None)
    {
      hide Replay, Reduce, Reconstruct, Intact, Accounted, Spent, Usable, Supported, History, Records, Legal, After, Cached, Readable, Unnamed, Flawless;
      hide Evident, WorksIn, Enumerate, Transition, Concluded, Serene, Complete, Executed;
      UsableIs(ports, ledger.truth, journal.store.genuine);
      ghost var entered := state;
      if request.id !in state.results {
        var recorded :- RecordOutcome(request, policy, ports, call);
        if !recorded {
          return Success(Some(Answer(Waiting, Some(request), state)));
        }
      }
      ghost var before := state;
      AdvanceMeans(state, request.id, policy);
      var ok := Persist(Advance(request.id), policy, ports.delivery(5), ports.archive, call);
      SereneAt(ports, journal.store.world.comments, 5);
      if !ok {
        return Failure;
      }
      AdvanceEnds(before, request.id, policy, state);
      AdvanceSettles(entered, before, request.id, policy, state);
      return Success(None);
    }

    /** Ends the active batch as far as its executor's authenticated state allows; `None` means no batch is active any more. */
    method SettleActive(allowExecution: bool, policy: Policy, ports: Ports, ghost call: Call) returns (r: Result<Option<Answer>>)
      requires Synced(ports.archive) && Usable(ports, ledger.truth, journal.store.genuine)
      requires call.ports == ports && call.epoch == epoch && call.run == run && call.allow == allowExecution
      requires call.base <= Committed(journal.store.world)
      requires Accounted(call, Loaded(journal.store.world))
      modifies this`state, journal`verified, journal.store, ledger`issued
      ensures Valid() && Accounted(call, Loaded(journal.store.world))
      ensures old(Committed(journal.store.world)) <= Committed(journal.store.world)
      ensures old(journal.store.trace) <= journal.store.trace
      ensures r.Success? ==> Synced(ports.archive)
      ensures r.Success? && r.value.None? ==> state.active.None?
      ensures old(state.active.None?) ==> r == Success(None) && state == old(state) && journal.store.world == old(journal.store.world)
      ensures r.Success? && r.value.Some? ==> r.value.value.state == state
      ensures r == Success(None) && old(state.active.Some?) ==> Concluded(old(state), state) && (old(Poised()) ==> Poised())
      ensures
        && old(Poised()) && Serene(ports, journal.store.world.comments) && old(state.active.Some?)
        && Settleable(old(state), ports)
        ==> r == Success(None)
      ensures var executes := r.Success? && r.value.Some? && r.value.value.action == Execute;
        if executes then Executed(r.value.value, old(ledger.issued), old(Committed(journal.store.world))) && allowExecution
        else ledger.issued == old(ledger.issued)
    {
      hide Replay, Reduce, Reconstruct, Intact, Accounted, Spent, Usable, Supported, History, Records, Legal, After, Cached, Readable, Unnamed, Flawless;
      hide Serene, Evident, WorksIn, Enumerate, Transition, Concluded;
      if state.active.None? {
        return Success(None);
      }
      UsableIs(ports, ledger.truth, journal.store.genuine);
      var active := state.active.value;
      ActiveIsBooked(Committed(journal.store.world), epoch, ports.archive, state);
      var request, executor := state.requests[active.requestId], active.executorRun;
      var status :- ports.runState(0, executor);
      if status != Terminal {
        if allowExecution && status == Running && executor == run && active.claim.None? {
          var answer :- ClaimActive(request, policy, ports.delivery(3), ports.archive, call);
          return Success(Some(answer));
        }
        return Success(Some(Answer(Waiting, Some(request), state)));
      }
      r := SettleTerminal(request, policy, ports, call);
    }

    /** Records the newest main tip, if it is news. */
    method ObserveTip(latest: string, moment: nat, policy: Policy, ports: Ports, ghost call: Call) returns (ok: bool)
      requires Synced(ports.archive) && Usable(ports, ledger.truth, journal.store.genuine) && call.ports == ports && call.epoch == epoch
      requires ports.main(0) == Success(latest) || ports.main(1) == Success(latest)
      requires Accounted(call, Loaded(journal.store.world))
      modifies this`state, journal`verified, journal.store
      ensures Valid() && Accounted(call, Loaded(journal.store.world))
      ensures old(Committed(journal.store.world)) <= Committed(journal.store.world)
      ensures old(journal.store.trace) <= journal.store.trace
      ensures ok ==> Synced(ports.archive)
      ensures ok ==> state.pending == Some(latest) && state.active == old(state.active) && state.blocked == old(state.blocked)
      ensures ok ==> state == old(state).(pending := Some(latest), generation := state.generation, events := state.events)
      ensures ok ==> Descends(ports, old(state.pending), latest)
      ensures ok && old(Poised()) ==> Poised()
      ensures
        && old(Poised()) && Serene(ports, journal.store.world.comments)
        && ExactSha(latest) && Descends(ports, old(state.pending), latest)
        ==> ok
    {
      hide Replay, Reduce, Reconstruct, Intact, Accounted, Supported, Readable, Unnamed, Flawless, Usable;
      hide History, Records, Legal, After, Cached, Transition, NextBatch, Chosen;
      UsableIs(ports, ledger.truth, journal.store.genuine);
      if state.pending == Some(latest) {
        return true;
      }
      var descends := true;
      if state.pending.Some? {
        var ancestor := ports.ancestor(state.pending.value, latest);
        if ancestor.Failure? {
          return false;
        }
        descends := ancestor.value;
      }
      FenceIsFresh(EventOf(state, Observe(latest, descends)), policy, ports.archive);
      ObserveSets(state, latest, descends, policy);
      ok := Persist(Observe(latest, descends), policy, ports.delivery(moment), ports.archive, call);
    }

    /** Applies the caller's resume command unless the loaded history already holds it. */
    method ResumeOnce(events: Log, command: Command, policy: Policy, ports: Ports, ghost call: Call) returns (ok: bool)
      requires Synced(ports.archive) && Usable(ports, ledger.truth, journal.store.genuine) && call.ports == ports && call.epoch == epoch && call.resume == Some(command)
      requires Accounted(call, Loaded(journal.store.world))
      modifies this`state, journal`verified, journal.store
      ensures Valid() && Accounted(call, Loaded(journal.store.world))
      ensures old(Committed(journal.store.world)) <= Committed(journal.store.world)
      ensures old(journal.store.trace) <= journal.store.trace
      ensures ok ==> Synced(ports.archive)
      ensures ok ==> state.requests == old(state.requests)
      ensures (exists e <- events :: e.id == "resume:" + command.id) ==>
        state == old(state) && journal.store.world == old(journal.store.world)
    {
      hide Replay, Reduce, Reconstruct, Intact, Accounted, JustifiedIn;
      var event := ResumeOf(state, command);
      if command.id == "" {
        return false;
      }
      for i := 0 to |events|
        invariant forall k | 0 <= k < i :: events[k].id != event.id
      {
        if events[i].id == event.id {
          return events[i].data == event.data;
        }
      }
      ghost var known, before := Committed(journal.store.world), state;
      assert Loaded(journal.store.world) == known;
      ResumeIsJustified(state, command, known, call);
      ok := Submit(event, policy, ports.delivery(2), ports.archive);
      AccountedMore(call, known, Loaded(journal.store.world), event);
      ResumeKeeps(before, event, policy);
    }

    /** Enqueues the caller's explicit request, then obeys the caller's resume command. */
    method ObeyCommands(events: Log, explicit: Option<Request>, resume: Option<Command>, policy: Policy, ports: Ports, ghost call: Call)
      returns (ok: bool)
      requires Synced(ports.archive) && Usable(ports, ledger.truth, journal.store.genuine)
      requires call.ports == ports && call.epoch == epoch && call.explicit == explicit && call.resume == resume
      requires Accounted(call, Loaded(journal.store.world))
      modifies this`state, journal`verified, journal.store
      ensures Valid() && Accounted(call, Loaded(journal.store.world))
      ensures old(Committed(journal.store.world)) <= Committed(journal.store.world)
      ensures old(journal.store.trace) <= journal.store.trace
      ensures ok ==> Synced(ports.archive)
      ensures ok && explicit.Some? ==> explicit.value.id in state.requests && state.requests[explicit.value.id] == explicit.value
      ensures explicit.None? && resume.None? ==> ok && state == old(state) && journal.store.world == old(journal.store.world)
    {
      hide Replay, Reduce, Reconstruct, Intact, Accounted, EnqueueExplicit, Supported;
      if explicit.Some? {
        var recorded := ports.archive(explicit.value.control);
        if recorded.None? {
          return false;
        }
        ghost var before := state;
        ok := Persist(Enqueue(explicit.value), recorded.value, ports.delivery(1), ports.archive, call);
        if !ok {
          return false;
        }
        EnqueueStores(before, explicit.value, recorded.value, state);
      }
      ok := true;
      if resume.Some? {
        ok := ResumeOnce(events, resume.value, policy, ports, call);
      }
    }

    /** Admits the chosen batch into this live run and claims it in the same call. */
    method AdmitAndClaim(request: Request, recorded: Policy, policy: Policy, ports: Ports, ghost call: Call) returns (r: Result<Answer>)
      requires Synced(ports.archive) && Usable(ports, ledger.truth, journal.store.genuine)
      requires call.ports == ports && call.epoch == epoch && call.run == run && call.allow
      requires ports.archive(request.control) == Some(recorded)
      requires Chosen(state, request, call)
      requires Accounted(call, Loaded(journal.store.world))
      modifies this`state, journal`verified, journal.store, ledger`issued
      ensures Valid() && Accounted(call, Loaded(journal.store.world))
      ensures old(Committed(journal.store.world)) <= Committed(journal.store.world)
      ensures old(journal.store.trace) <= journal.store.trace
      ensures r.Success? ==> Synced(ports.archive) && r.value.state == state
      ensures r.Success? && r.value.action == Execute ==> r.value.request == Some(request)
      ensures
        && old(Poised()) && Serene(ports, journal.store.world.comments) && Permitted(old(state), request, ports, run)
        && Transition(old(state), Admit(request, run, true, true, true), recorded).Success?
        ==> r.Success? && r.value.action == (if request.selection.suites != [] then Execute else Idle) && r.value.request == Some(request)
      ensures if r.Success? && r.value.action == Execute
        then Executed(r.value, old(ledger.issued), old(Committed(journal.store.world)))
        else ledger.issued == old(ledger.issued)
    {
      hide Replay, Reduce, Reconstruct, Intact, Accounted, AdmitBatch, Spent, Supported, Usable, History, Records, Legal, After, Cached, Readable, Unnamed, Flawless;
      hide Chosen, NextBatch, Transition, Executed, JustifiedIn;
      UsableIs(ports, ledger.truth, journal.store.genuine);
      if !ports.verifyTarget(request.target) {
        return Failure;
      }
      var oldTerminal := true;
      if state.processed.None? {
        oldTerminal :- ports.oldRunsTerminal;
      }
      if !oldTerminal {
        return Success(Answer(Waiting, None, state));
      }
      var own :- ports.runState(1, run);
      if own != Running {
        return Success(Answer(Waiting, None, state));
      }
      var ancestor := true;
      if request.base.Some? {
        ancestor :- ports.ancestor(request.base.value, request.target);
      }
      var admit := Admit(request, run, true, ancestor, oldTerminal);
      FenceIsFresh(EventOf(state, admit), recorded, ports.archive);
      AdmitActivates(state, admit, recorded);
      AdmitIsJustified(state, admit, Committed(journal.store.world), call);
      ghost var known := Committed(journal.store.world);
      var ok := Persist(admit, recorded, ports.delivery(7), ports.archive, call);
      if !ok {
        return Failure;
      }
      ghost var admitted := Committed(journal.store.world);
      ClaimIsJustified(state, request.id, admitted, call);
      r := ClaimActive(request, policy, ports.delivery(8), ports.archive, call);
      if r.Success? && r.value.action == Execute {
        ExecutedSince(r.value, old(ledger.issued), admitted, known);
      }
    }

    method AdmitNext(latest: string, policy: Policy, ports: Ports, ghost call: Call) returns (r: Result<Answer>)
      requires Synced(ports.archive) && Usable(ports, ledger.truth, journal.store.genuine) && ports.policy == Success(policy)
      requires call.ports == ports && call.epoch == epoch && call.run == run && call.allow
      requires ports.main(1) == Success(latest)
      requires Accounted(call, Loaded(journal.store.world))
      modifies this`state, journal`verified, journal.store, ledger`issued
      ensures Valid() && Accounted(call, Loaded(journal.store.world))
      ensures old(Committed(journal.store.world)) <= Committed(journal.store.world)
      ensures old(journal.store.trace) <= journal.store.trace
      ensures r.Success? ==> Synced(ports.archive) && r.value.state == state
      ensures r.Success? && r.value.action == Execute ==> r.value.request.Some? && Chosen(old(state), r.value.request.value, call)
      ensures
        && old(Poised()) && Serene(ports, journal.store.world.comments) && Waits(old(state), ports.archive)
        && Permitted(old(state), Foremost(old(state)), ports, run)
        ==> r.Success? && r.value.action == Execute && r.value.request == Some(Foremost(old(state)))
      ensures forall request, recorded |
        && NextBatch(old(state), ports, policy, run, latest) == Success(Take(request, recorded))
        && old(Poised()) && Serene(ports, journal.store.world.comments) && Permitted(old(state), request, ports, run)
        && Transition(old(state), Admit(request, run, true, true, true), recorded).Success? ::
        r.Success? && r.value.action == (if request.selection.suites != [] then Execute else Idle) && r.value.request == Some(request)
      ensures if r.Success? && r.value.action == Execute
        then Executed(r.value, old(ledger.issued), old(Committed(journal.store.world)))
        else ledger.issued == old(ledger.issued)
    {
      hide Replay, Reduce, Reconstruct, Intact, Accounted, NextBatch, Spent, Usable, Executed, Transition, Serene, Permitted, Waits, QueueFits;
      hide History, Records, Legal, After, Cached, Poised;
      UsableIs(ports, ledger.truth, journal.store.genuine);
      NextBatchMeans(state, ports, policy, run, latest);
      if Waits(state, ports.archive) {
        HeadIsNext(state, ports, policy, run, latest);
      }
      var choice :- NextBatch(state, ports, policy, run, latest);
      if choice.Stop? {
        return Success(Answer(choice.action, None, state));
      }
      r := AdmitAndClaim(choice.request, choice.policy, policy, ports, call);
    }

    /** Reads the tip once more at the admission boundary, and admits against that. */
    method AdmitNewest(policy: Policy, ports: Ports, ghost call: Call) returns (r: Result<Answer>)
      requires Synced(ports.archive) && Usable(ports, ledger.truth, journal.store.genuine) && ports.policy == Success(policy)
      requires call.ports == ports && call.epoch == epoch && call.run == run && call.allow
      requires Accounted(call, Loaded(journal.store.world))
      modifies this`state, journal`verified, journal.store, ledger`issued
      ensures Valid() && Accounted(call, Loaded(journal.store.world))
      ensures old(Committed(journal.store.world)) <= Committed(journal.store.world)
      ensures old(journal.store.trace) <= journal.store.trace
      ensures r.Success? ==> Synced(ports.archive) && r.value.state == state
      ensures
        && old(Poised()) && Serene(ports, journal.store.world.comments) && Waits(old(state), ports.archive)
        && Permitted(old(state), Foremost(old(state)), ports, run)
        && ports.main(1).Success? && ExactSha(ports.main(1).value) && Descends(ports, old(state.pending), ports.main(1).value)
        ==> r.Success? && r.value.action == Execute && r.value.request == Some(Foremost(old(state)))
      ensures if r.Success? && r.value.action == Execute
        then Executed(r.value, old(ledger.issued), old(Committed(journal.store.world)))
        else ledger.issued == old(ledger.issued)
    {
      hide Replay, Reduce, Reconstruct, Intact, Accounted, NextBatch, Spent, Usable, Executed, Serene, Permitted, Waits, QueueFits;
      hide History, Records, Legal, After, Cached, Poised, Foremost;
      ghost var before := state;
      ghost var base := Committed(journal.store.world);
      var latest :- ports.main(1);
      var ok := ObserveTip(latest, 6, policy, ports, call);
      if !ok {
        return Failure;
      }
      TipIsAside(before, state, ports, run);
      ghost var known := Committed(journal.store.world);
      r := AdmitNext(latest, policy, ports, call);
      if r.Success? && r.value.action == Execute {
        ExecutedSince(r.value, old(ledger.issued), known, base);
      }
    }

    /** Loads the journal, reads the newest tip and the current policy, and replays. */
    method Open(ports: Ports, ghost call: Call) returns (r: Result<Opening>)
      requires Valid() && Usable(ports, ledger.truth, journal.store.genuine) && call.base == Loaded(journal.store.world)
      modifies this`state, journal`verified, journal.store
      ensures Valid() && Accounted(call, Loaded(journal.store.world))
      ensures r.Success? ==> Synced(ports.archive) && r.value.events == Committed(journal.store.world) == call.base
      ensures r.Success? ==> ports.main(0) == Success(r.value.latest) && ports.policy == Success(r.value.policy)
      ensures old(journal.store.trace) <= journal.store.trace
      ensures journal.store.world == old(journal.store.world) || call.base == Committed(journal.store.world)
      ensures r.Success? ==> Readable(journal.store.world) && Reconstruct(call.base, epoch, ports.archive) == Success(state)
      ensures
        && old(Readable(journal.store.world)) && Serene(ports, journal.store.world.comments)
        && ports.main(0).Success? && ports.policy.Success? && Reconstruct(call.base, epoch, ports.archive).Success?
        ==> r.Success?
    {
      hide Replay, Reduce, Reconstruct, Intact, Accounted, Usable;
      UsableIs(ports, ledger.truth, journal.store.genuine);
      ghost var before := journal.store.world;
      if !ports.locked {
        journal.store.Sound();
        CommittedIsLoaded(before);
        NothingWritten(call, Loaded(before));
        return Failure;
      }
      var loaded := journal.Load(ports.load);
      IntactIs(before, ledger.issued, ledger.truth);
      IntactStays(before, journal.store.world, Loaded(before), ledger.issued, ledger.truth);
      NothingWritten(call, Loaded(journal.store.world));
      var events :- loaded;
      var latest :- ports.main(0);
      var policy :- ports.policy;
      state :- Rebuild(events, ports.archive);
      return Success(Opening(events, latest, policy));
    }

    /**
     * At most one execution a call. It is handed out only after this call committed its claim, and no request is
     * ever handed out twice, by this controller or any other on the same journal.
     */
    method Reconcile(explicit: Option<Request>, resume: Option<Command>, allowExecution: bool, ports: Ports)
      returns (r: Result<Answer>)
      requires Valid() && Usable(ports, ledger.truth, journal.store.genuine)
      modifies this`state, journal`verified, journal.store, ledger`issued
      ensures Valid()
      ensures r.Success? ==> Synced(ports.archive) && r.value.state == state
      ensures Accounted(Call(ports, run, epoch, explicit, resume, allowExecution, old(Loaded(journal.store.world))), Loaded(journal.store.world))
      ensures old(journal.store.trace) <= journal.store.trace
      ensures journal.store.world == old(journal.store.world) || old(Loaded(journal.store.world)) <= Committed(journal.store.world)
      ensures
        var found := Reconstruct(old(Loaded(journal.store.world)), epoch, ports.archive);
        && old(Readable(journal.store.world)) && Serene(ports, journal.store.world.comments)
        && explicit.None? && resume.None? && allowExecution
        && found.Success? && Executable(found.value, ports, run)
        ==> r.Success? && r.value.action == Execute && r.value.request == Some(Foremost(found.value))
      ensures if r.Success? && r.value.action == Execute
        then Executed(r.value, old(ledger.issued), old(Loaded(journal.store.world))) && allowExecution
        else ledger.issued == old(ledger.issued)
    {
      hide Replay, Reduce, Reconstruct, Intact, Accounted, NextBatch, Spent, Usable, Executed, Serene, Permitted, QueueFits;
      hide History, Records, Legal, After, Cached, Readable, Unnamed, Executable, Foremost;
      ghost var call := Call(ports, run, epoch, explicit, resume, allowExecution, Loaded(journal.store.world));
      ghost var found := Reconstruct(call.base, epoch, ports.archive);
      if found.Success? && Executable(found.value, ports, run) {
        ExecutableIsObserved(found.value, ports, run);
      }
      var opening :- Open(ports, call);
      r := Proceed(opening, explicit, resume, allowExecution, ports, call);
    }

    /** Everything after the journal was opened: the tip, the caller's commands, settlement, admission. */
    method Proceed(opening: Opening, explicit: Option<Request>, resume: Option<Command>, allowExecution: bool, ports: Ports, ghost call: Call)
      returns (r: Result<Answer>)
      requires Synced(ports.archive) && Usable(ports, ledger.truth, journal.store.genuine)
      requires call == Call(ports, run, epoch, explicit, resume, allowExecution, Committed(journal.store.world))
      requires ports.main(0) == Success(opening.latest) && ports.policy == Success(opening.policy)
      requires Accounted(call, Loaded(journal.store.world))
      modifies this`state, journal`verified, journal.store, ledger`issued
      ensures Valid() && Accounted(call, Loaded(journal.store.world))
      ensures old(Committed(journal.store.world)) <= Committed(journal.store.world)
      ensures old(journal.store.trace) <= journal.store.trace
      ensures r.Success? ==> Synced(ports.archive) && r.value.state == state
      ensures
        && old(Readable(journal.store.world)) && Serene(ports, journal.store.world.comments)
        && explicit.None? && resume.None? && allowExecution && Executable(old(state), ports, run)
        ==> r.Success? && r.value.action == Execute && r.value.request == Some(Foremost(old(state)))
      ensures if r.Success? && r.value.action == Execute
        then Executed(r.value, old(ledger.issued), old(Committed(journal.store.world))) && allowExecution
        else ledger.issued == old(ledger.issued)
    {
      hide Replay, Reduce, Reconstruct, Intact, Accounted, NextBatch, Spent, Usable, Executed, Serene, Permitted, Waits, QueueFits;
      hide History, Records, Legal, After, Cached, Readable, Unnamed, Executable, Foremost, ExactSha, Descends;
      ghost var before := state;
      FoundFits(call.base, epoch, ports.archive, state);
      if Executable(state, ports, run) {
        ExecutableIsObserved(state, ports, run);
      }
      var policy := opening.policy;
      var ok := ObserveTip(opening.latest, 0, policy, ports, call);
      if !ok {
        return Failure;
      }
      if Executable(before, ports, run) {
        TipLeavesExecutable(before, state, ports, run);
      }
      ok := ObeyCommands(opening.events, explicit, resume, policy, ports, call);
      if !ok {
        return Failure;
      }
      ghost var known := Committed(journal.store.world);
      r := Decide(allowExecution, policy, ports, call);
      if r.Success? && r.value.action == Execute {
        ExecutedSince(r.value, old(ledger.issued), known, call.base);
      }
    }

    /** Settles the active batch, and admits the next one if this call may execute. */
    method Decide(allowExecution: bool, policy: Policy, ports: Ports, ghost call: Call) returns (r: Result<Answer>)
      requires Synced(ports.archive) && Usable(ports, ledger.truth, journal.store.genuine) && ports.policy == Success(policy)
      requires call.ports == ports && call.epoch == epoch && call.run == run && call.allow == allowExecution
      requires call.base <= Committed(journal.store.world)
      requires Accounted(call, Loaded(journal.store.world))
      modifies this`state, journal`verified, journal.store, ledger`issued
      ensures Valid() && Accounted(call, Loaded(journal.store.world))
      ensures old(Committed(journal.store.world)) <= Committed(journal.store.world)
      ensures old(journal.store.trace) <= journal.store.trace
      ensures r.Success? ==> Synced(ports.archive) && r.value.state == state
      ensures
        && old(Poised()) && Serene(ports, journal.store.world.comments) && allowExecution
        && old(state.active.None?) && !old(state.blocked) && Waits(old(state), ports.archive)
        && Permitted(old(state), Foremost(old(state)), ports, run)
        && ports.main(1).Success? && ExactSha(ports.main(1).value) && Descends(ports, old(state.pending), ports.main(1).value)
        ==> r.Success? && r.value.action == Execute && r.value.request == Some(Foremost(old(state)))
      ensures if r.Success? && r.value.action == Execute
        then Executed(r.value, old(ledger.issued), old(Committed(journal.store.world))) && allowExecution
        else ledger.issued == old(ledger.issued)
    {
      hide Replay, Reduce, Reconstruct, Intact, Accounted, NextBatch, Spent, Usable, Executed, Serene, Permitted, Waits, QueueFits;
      hide History, Records, Legal, After, Cached, Readable, Unnamed, Foremost, ExactSha, Descends;
      ghost var base := Committed(journal.store.world);
      var waiting :- SettleActive(allowExecution, policy, ports, call);
      if waiting.Some? {
        return Success(waiting.value);
      }
      if !allowExecution {
        return Success(Answer(Idle, None, state));
      }
      if state.blocked {
        return Success(Answer(Waiting, None, state));
      }
      ghost var known := Committed(journal.store.world);
      r := AdmitNewest(policy, ports, call);
      if r.Success? && r.value.action == Execute {
        ExecutedSince(r.value, old(ledger.issued), known, base);
      }
    }

    lemma ExecutedSince(answer: Answer, issued: seq<string>, known: Log, base: Log)
      requires Executed(answer, issued, known) && base <= known
      ensures Executed(answer, issued, base)
    {
    }

    /** What has happened when an execution is handed out. */
    ghost predicate Executed(answer: Answer, issued: seq<string>, known: Log)
      reads this, journal, journal.store, ledger
    {
      var now := Committed(journal.store.world);
      && answer.request.Some?
      && var id := answer.request.value.id;
      && answer.request.value.selection.suites != []
      && id !in issued && ledger.issued == issued + [id]
      && known < now && Last(now).data == Claim(id, run) && Last(now) !in known
      && Spent(state, id)
    }
  }

  lemma AdvanceSettles(entered: State, s: State, id: string, policy: Policy, t: State)
    requires entered.active.Some? && entered.active.value.requestId == id && Settling(entered, s) && id in s.requests
    requires EventOf(s, Advance(id)).id !in s.events && Reduce(s, EventOf(s, Advance(id)), policy) == Success(t)
    ensures Concluded(entered, t)
  {
    hide Transition, Enumerate;
    AdvanceMeans(s, id, policy);
  }

  lemma AdvanceEnds(s: State, id: string, policy: Policy, t: State)
    requires EventOf(s, Advance(id)).id !in s.events && Reduce(s, EventOf(s, Advance(id)), policy) == Success(t)
    ensures t.active.None?
  {
  }

  lemma ResumeIsJustified(s: State, command: Command, log: Log, c: Call)
    requires c.resume == Some(command)
    ensures JustifiedIn(s, ResumeOf(s, command).data, log, c)
  {
  }

  /** Authenticated evidence of the claimed run, or of its loss, is a result the reducer accepts. */
  lemma EvidenceIsInOrder(s: State, request: Request, receipt: Receipt, o: Observation, policy: Policy)
    requires IsActive(s, request.id) && s.requests[request.id] == request && !receipt.NotYet?
    requires o == ObservationOf(request, s.active.value.executorRun, receipt)
    ensures var a := s.active.value;
      && a.claim == Some(a.executorRun) && Fresh(a.executorRun) && request.id !in s.results && (receipt.Ready? ==> Complete(request, receipt))
      ==> Transition(s, Report(o), policy).Success?
  {
    ReportMeans(s, o, policy);
    if !receipt.Ready? {
      LossIsReported(request, o);
    }
  }

  /** What is reported is backed by the receipt that was found. */
  lemma ReportIsJustified(s: State, request: Request, receipt: Receipt, o: Observation, log: Log, c: Call)
    requires IsActive(s, request.id) && s.requests[request.id] == request && request.id == s.requests[request.id].id && !receipt.NotYet?
    requires c.ports.runState(0, s.active.value.executorRun) == Success(Terminal)
    requires o == ObservationOf(request, s.active.value.executorRun, receipt)
    requires Backs(request, receipt, s.active.value.executorRun, log, c)
    ensures JustifiedIn(s, Report(o), log, c)
  {
    hide JustClaimed;
    if !receipt.Ready? {
      LossIsReported(request, o);
    }
  }

  lemma NothingIsComplete(request: Request)
    requires request.selection.suites == []
    ensures Complete(request, Ready(map[], "not-required:" + request.id))
  {
  }

  lemma ReportKeepsBatch(s: State, o: Observation, policy: Policy, t: State)
    requires EventOf(s, Report(o)).id !in s.events && Reduce(s, EventOf(s, Report(o)), policy) == Success(t)
    ensures t.active == s.active && t.requests == s.requests && o.requestId in t.results && Settling(s, t)
  {
    hide Reportable;
  }

  lemma ObserveSets(s: State, target: string, descends: bool, policy: Policy)
    ensures var e := EventOf(s, Observe(target, descends));
      var t := Reduce(s, e, policy);
      t.Success? && e.id !in s.events ==>
        descends && t.value == Stamp(s.(pending := Some(target)), e)
    ensures ExactSha(target) && descends ==> Transition(s, Observe(target, descends), policy).Success?
    ensures !descends && EventOf(s, Observe(target, descends)).id !in s.events ==>
      Reduce(s, EventOf(s, Observe(target, descends)), policy).Failure?
  {
  }

  lemma AdmitIsJustified(s: State, data: Data, log: Log, c: Call)
    requires data.Admit? && data.executorRun == c.run && c.allow && data.historyComplete && data.oldRunsTerminal
    requires Chosen(s, data.request, c) && c.ports.verifyTarget(data.request.target) && c.ports.runState(1, c.run) == Success(Running)
    requires data.request.base.Some? && data.ancestor ==> c.ports.ancestor(data.request.base.value, data.request.target) == Success(true)
    requires s.processed.None? ==> c.ports.oldRunsTerminal == Success(true)
    ensures data.ancestor ==> JustifiedIn(s, data, log, c)
  {
    hide Chosen;
  }

  lemma ClaimIsJustified(s: State, id: string, log: Log, c: Call)
    requires s.active == Some(Active(id, c.run, None)) && c.allow && c.ports.runState(1, c.run) == Success(Running)
    ensures JustifiedIn(s, Claim(id, c.run), log, c)
  {
  }

  lemma AdmitActivates(s: State, data: Data, policy: Policy)
    requires data.Admit?
    ensures var e := EventOf(s, data);
      var t := Reduce(s, e, policy);
      t.Success? && e.id !in s.events ==>
        data.ancestor && Unclaimed(t.value, data.request.id) && t.value.active.value.executorRun == data.executorRun
  {
    hide Rebuilds, AutomaticAdmissible;
  }

  lemma IntactIs(w: World<Data>, issued: seq<string>, truth: Archive)
    requires Intact(w, issued, truth)
    ensures Replayable(Loaded(w), truth)
  {
  }

  lemma NothingWritten(c: Call, log: Log)
    requires log <= c.base
    ensures Accounted(c, log)
  {
  }

  lemma UsableIs(ports: Ports, truth: Archive, genuine: Authenticate<Data>)
    requires Usable(ports, truth, genuine)
    ensures Faithful(ports.load, genuine) && Agrees(ports.archive, truth)
    ensures forall n :: Trusty(ports.delivery(n), genuine)
    ensures ports.policy.Success? ==> ports.archive(ports.control) == Some(ports.policy.value)
  {
  }

  lemma ResumeKeeps(s: State, e: Event<Data>, policy: Policy)
    requires e.data.Resume?
    ensures var t := Reduce(s, e, policy); t.Success? ==> t.value.requests == s.requests
  {
  }

  lemma EnqueueStores(s: State, r: Request, policy: Policy, t: State)
    requires EventOf(s, Enqueue(r)).id !in s.events && Reduce(s, EventOf(s, Enqueue(r)), policy) == Success(t)
    ensures r.id in t.requests && t.requests[r.id] == r
  {
    hide EnqueueExplicit;
    EnqueueKeeps(s, r, policy);
  }

  lemma NothingSpentInNothing(log: Log, id: string, truth: Archive)
    ensures log == [] ==> !SpentIn(log, id, truth)
  {
  }
}
