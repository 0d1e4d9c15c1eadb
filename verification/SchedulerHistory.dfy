/** Cursor, results, retries and verification debt over whole runs of the scheduler. */
module SchedulerHistory {
  import opened Wrappers
  import opened Chain
  import opened Scopes
  import opened Scheduler
  import opened SchedulerRuns
  import opened Sequences
  import W = Workloads

  // ---------------------------------------------------------------- the automatic cursor

  function CursorAt(batches: seq<Request>, n: nat): Option<string>
    requires n <= |batches|
  {
    if n == 0 then None else Some(batches[n - 1].target)
  }

  /** The batches tile history without a gap: each starts where the one before it ended, the first from nothing. */
  predicate Tiles(batches: seq<Request>, cursor: Option<string>) {
    && (forall i | 0 <= i < |batches| ::
          batches[i].base == CursorAt(batches, i) && (batches[i].kind == Bootstrap <==> i == 0))
    && cursor == CursorAt(batches, |batches|)
  }

  lemma CursorStands(batches: seq<Request>, r: Request, n: nat)
    requires n <= |batches|
    ensures CursorAt(batches + [r], n) == CursorAt(batches, n)
  {
    assert n > 0 ==> (batches + [r])[n - 1] == batches[n - 1];
  }

  lemma TilesSnoc(batches: seq<Request>, r: Request, cursor: Option<string>)
    requires Tiles(batches, cursor) && r.base == cursor && (r.kind == Bootstrap <==> cursor.None?)
    ensures Tiles(batches + [r], Some(r.target))
  {
    hide CursorAt;
    var all := batches + [r];
    CursorEnds(batches);
    forall i | 0 <= i < |all| ensures all[i].base == CursorAt(all, i) && (all[i].kind == Bootstrap <==> i == 0) {
      CursorStands(batches, r, i);
      if i < |batches| {
        assert all[i] == batches[i];
      }
    }
    CursorEnds(all);
  }

  lemma CursorEnds(batches: seq<Request>)
    ensures CursorAt(batches, |batches|) == if batches == [] then None else Some(batches[|batches| - 1].target)
  {
  }

  ghost predicate Tiled(log: Log, s: State) {
    && Tiles(Automatic(Finished(log)), s.processed)
    && (s.active.Some? && s.active.value.requestId in s.requests ==>
          var r := s.requests[s.active.value.requestId];
          !Explicit(r.kind) ==> r.base == s.processed && (r.kind == Bootstrap <==> s.processed.None?))
  }

  lemma OnlyAdvanceMovesCursor(s: State, data: Data, policy: Policy)
    ensures var t := Transition(s, data, policy);
      t.Success? && t.value.processed != s.processed ==>
        && data.Advance? && IsActive(s, data.requestId)
        && !Explicit(s.requests[data.requestId].kind)
        && t.value.processed == Some(s.requests[data.requestId].target)
  {
    hide Rebuilds, AutomaticAdmissible, RetryAdmissible, Reportable, SettledDebts, FailuresAfter, Resumed;
  }

  lemma AdvanceKeeps(s: State, id: string)
    ensures var t := AdvanceCursor(s, id);
      t.Success? ==>
        && IsActive(s, id) && id in s.results
        && t.value.active.None?
        && t.value.processed == (if Explicit(s.requests[id].kind) then s.processed else Some(s.requests[id].target))
        && t.value.debts == (if Explicit(s.requests[id].kind) then s.debts else SettledDebts(s.debts, s.requests[id], s.results[id]))
        && t.value.pending == s.pending && t.value.requests == s.requests && t.value.results == s.results
  {
    hide SettledDebts, FailuresAfter;
  }

  lemma AutomaticStartsAtCursor(s: State, r: Request, policy: Policy, oldRunsTerminal: bool)
    requires AutomaticAdmissible(s, r, policy, oldRunsTerminal)
    ensures r.base == s.processed && Some(r.target) == s.pending
    ensures r.kind == Bootstrap <==> s.processed.None?
  {
    hide CarriesDebt;
  }

  lemma TiledAdvance(log: Log, s: State, e: Event<Data>, policy: Policy)
    requires e.data.Advance? && Booked(log, s) && ActiveIsNewest(log, s) && Tiled(log, s) && Transition(s, e.data, policy).Success?
    ensures Tiled(log + [e], Transition(s, e.data, policy).value)
  {
    hide Admissions, Finished, Automatic, AdvanceCursor, Tiles;
    SnocFacts(log, e);
    AdvanceKeeps(s, e.data.requestId);
    var newest := Last(Admissions(log));
    assert Known(s, newest);
    AdmissionsSnoc(Finished(log), newest);
    if Explicit(newest.request.kind) {
      assert Automatic(Finished(log)) + [] == Automatic(Finished(log));
    } else {
      TilesSnoc(Automatic(Finished(log)), newest.request, s.processed);
    }
  }

  lemma TiledStep(log: Log, s: State, e: Event<Data>, policy: Policy)
    requires Booked(log, s) && ActiveIsNewest(log, s) && Tiled(log, s) && Transition(s, e.data, policy).Success?
    ensures Tiled(log + [e], Transition(s, e.data, policy).value)
  {
    hide Transition, Admissions, Finished, Automatic, Tiles, AutomaticAdmissible;
    SnocFacts(log, e);
    OnlyAdvanceMovesCursor(s, e.data, policy);
    match e.data
    case Advance(_) => TiledAdvance(log, s, e, policy);
    case Admit(r, _, _, _, terminal) =>
      AdmitKeeps(s, e.data, policy);
      if !Explicit(r.kind) {
        AutomaticStartsAtCursor(s, r, policy, terminal);
      }
    case Enqueue(_) =>
      ActiveIsKnown(log, s);
      EnqueueStands(s, e.data, policy);
    case _ => OthersKeepRequests(s, e.data, policy);
  }

  lemma {:induction false} ActiveIsKnown(log: Log, s: State)
    requires Booked(log, s) && ActiveIsNewest(log, s)
    ensures s.active.Some? ==> IsActive(s, s.active.value.requestId)
    ensures s.active.Some? ==> s.requests[s.active.value.requestId] == Last(Admissions(log)).request
  {
    hide Admissions;
    if s.active.Some? {
      assert Known(s, Last(Admissions(log)));
    }
  }

  lemma EnqueueStands(s: State, data: Data, policy: Policy)
    requires data.Enqueue? && Transition(s, data, policy).Success?
    ensures var t := Transition(s, data, policy).value;
      && t.active == s.active && t.results == s.results && t.debts == s.debts && t.pending == s.pending && t.processed == s.processed
      && (forall id <- s.requests :: id in t.requests && t.requests[id] == s.requests[id])
  {
    hide EnqueueExplicit;
    EnqueueKeeps(s, data.request, policy);
  }

  // ---------------------------------------------------------------- one batch at a time

  /** The admitted batches are the finished ones, in order, and the active one if there is any. */
  ghost predicate OneAtATime(log: Log, s: State) {
    Admissions(log) == Finished(log) + (if s.active.Some? && Admissions(log) != [] then [Last(Admissions(log))] else [])
  }

  lemma OneAtATimeStep(log: Log, s: State, e: Event<Data>, policy: Policy)
    requires ActiveIsNewest(log, s) && OneAtATime(log, s) && Transition(s, e.data, policy).Success?
    ensures OneAtATime(log + [e], Transition(s, e.data, policy).value)
  {
    hide Admissions, Finished, Transition;
    SnocFacts(log, e);
    match e.data
    case Admit(r, executor, _, _, _) =>
      AdmitKeeps(s, e.data, policy);
      assert Finished(log) + [] == Finished(log);
    case Advance(id) =>
      AdvanceIs(s, e.data, policy);
      AdvanceKeeps(s, id);
      assert Finished(log) + [Last(Admissions(log))] + [] == Finished(log) + [Last(Admissions(log))];
    case _ => SameActivity(s, e.data, policy);
  }

  lemma SameActivity(s: State, data: Data, policy: Policy)
    requires !data.Admit? && !data.Advance?
    ensures var t := Transition(s, data, policy); t.Success? ==> t.value.active.Some? == s.active.Some?
  {
    hide Rebuilds, RetryAdmissible, Reportable, Resumed;
  }

  /** Whether the last block has been lifted. */
  function IsBlocked(log: Log): bool {
    if log == [] then false
    else
      match Last(log).data
      case Block(_, _) => true
      case Unblock(_) => false
      case _ => IsBlocked(Front(log))
  }

  /** What each admission was allowed on: complete history, a verified base, no block, and no older run before the first cursor. */
  ghost predicate Authorized(log: Log) {
    forall i | 0 <= i < |log| && log[i].data.Admit? ::
      var d := log[i].data;
      && d.historyComplete && d.ancestor && Fresh(d.executorRun) && !IsBlocked(log[..i])
      && (Automatic(Finished(log[..i])) == [] ==> d.oldRunsTerminal)
  }

  lemma OthersKeepBlock(s: State, data: Data, policy: Policy)
    requires !data.Block? && !data.Unblock? && !data.Admit? && !data.Enqueue?
    ensures var t := Transition(s, data, policy); t.Success? ==> t.value.blocked == s.blocked
  {
    hide Reportable, SettledDebts, FailuresAfter, Resumed, IsActive;
  }

  lemma {:induction false} BlockedStep(log: Log, s: State, e: Event<Data>, policy: Policy)
    requires s.blocked == IsBlocked(log) && Transition(s, e.data, policy).Success?
    ensures Transition(s, e.data, policy).value.blocked == IsBlocked(log + [e])
  {
    hide EnqueueExplicit, AdmitBatch;
    Snoc(log, e);
    match e.data
    case Admit(_, _, _, _, _) => AdmitKeeps(s, e.data, policy);
    case Enqueue(r) => EnqueueKeeps(s, r, policy);
    case Block(_, _) =>
    case Unblock(_) =>
    case _ =>
      hide Transition;
      OthersKeepBlock(s, e.data, policy);
  }

  lemma AdmitNeeds(s: State, data: Data, policy: Policy)
    requires data.Admit? && Transition(s, data, policy).Success?
    ensures data.historyComplete && data.ancestor && Fresh(data.executorRun) && !s.blocked && Rebuilds(policy, data.request)
    ensures s.processed.None? ==> data.oldRunsTerminal
  {
    hide Rebuilds, AutomaticAdmissible;
  }

  lemma {:induction false} AuthorizedStep(log: Log, s: State, e: Event<Data>, policy: Policy)
    requires Authorized(log) && s.blocked == IsBlocked(log) && Tiled(log, s) && Transition(s, e.data, policy).Success?
    ensures Authorized(log + [e])
  {
    hide Transition, IsBlocked, Automatic, Finished;
    var now := log + [e];
    forall i | 0 <= i < |now| && now[i].data.Admit?
      ensures now[i].data.historyComplete && now[i].data.ancestor && Fresh(now[i].data.executorRun) && !IsBlocked(now[..i])
      ensures Automatic(Finished(now[..i])) == [] ==> now[i].data.oldRunsTerminal
    {
      if i < |log| {
        assert now[..i] == log[..i] && now[i] == log[i];
      } else {
        assert now[..i] == log;
        AdmitNeeds(s, e.data, policy);
      }
    }
  }

  // ---------------------------------------------------------------- ancestry

  /** Ancestry-or-equality between main revisions. */
  type Ancestry = (string, string) -> bool

  ghost predicate IsAncestry(anc: Ancestry) {
    && (forall a :: anc(a, a))
    && (forall a, b, c | anc(a, b) && anc(b, c) :: anc(a, c))
  }

  /** The adapter's ancestry assertions are true: a tip that is said to descend from the one observed before it does. */
  ghost predicate Honest(log: Log, anc: Ancestry) {
    log != [] ==>
      && Honest(Front(log), anc)
      && (Last(log).data.Observe? && Last(log).data.descendsPending && MainTip(Front(log)).Some? ==> anc(MainTip(Front(log)).value, Last(log).data.target))
  }

  ghost predicate Leads(anc: Ancestry, a: Option<string>, b: Option<string>) {
    a.Some? ==> b.Some? && anc(a.value, b.value)
  }

  ghost predicate Ordered(log: Log, s: State, anc: Ancestry) {
    && s.pending == MainTip(log)
    && Leads(anc, s.processed, s.pending)
    && (s.active.Some? && s.active.value.requestId in s.requests ==>
          var r := s.requests[s.active.value.requestId];
          !Explicit(r.kind) ==> Leads(anc, Some(r.target), s.pending))
    && (forall r <- Automatic(Admissions(log)) :: Leads(anc, r.base, Some(r.target)))
  }

  lemma OnlyObserveMovesTip(s: State, data: Data, policy: Policy)
    ensures var t := Transition(s, data, policy);
      t.Success? ==> t.value.pending == match data { case Observe(target, _) => Some(target) case _ => s.pending }
    ensures data.Observe? && !data.descendsPending ==> Transition(s, data, policy).Failure?
  {
    hide Rebuilds, AutomaticAdmissible, RetryAdmissible, Reportable, SettledDebts, FailuresAfter, Resumed;
  }

  lemma LeadsOn(anc: Ancestry, a: Option<string>, b: Option<string>, c: Option<string>)
    requires IsAncestry(anc) && Leads(anc, a, b) && Leads(anc, b, c)
    ensures Leads(anc, a, c)
  {
  }

  lemma {:induction false} OrderedStep(log: Log, s: State, e: Event<Data>, policy: Policy, anc: Ancestry)
    requires IsAncestry(anc) && Honest(log + [e], anc)
    requires Booked(log, s) && ActiveIsNewest(log, s) && Ordered(log, s, anc) && Transition(s, e.data, policy).Success?
    ensures Ordered(log + [e], Transition(s, e.data, policy).value, anc)
  {
    hide Transition, Admissions, Automatic, MainTip, AutomaticAdmissible, IsAncestry;
    SnocFacts(log, e);
    Snoc(log, e);
    var t := Transition(s, e.data, policy).value;
    OnlyObserveMovesTip(s, e.data, policy);
    OnlyAdvanceMovesCursor(s, e.data, policy);
    match e.data
    case Admit(r, executor, _, _, terminal) =>
      AdmitKeeps(s, e.data, policy);
      AdmissionsSnoc(Admissions(log), Admission(r, executor));
      if !Explicit(r.kind) {
        AutomaticStartsAtCursor(s, r, policy, terminal);
        assert anc(r.target, r.target) by { AncestryIsReflexive(anc, r.target); }
      }
    case Observe(target, _) =>
      OthersKeepRequests(s, e.data, policy);
      assert Leads(anc, s.pending, t.pending);
      LeadsOn(anc, s.processed, s.pending, t.pending);
      if s.active.Some? && s.active.value.requestId in s.requests {
        var r := s.requests[s.active.value.requestId];
        if !Explicit(r.kind) {
          LeadsOn(anc, Some(r.target), s.pending, t.pending);
        }
      }
    case Enqueue(_) =>
      ActiveIsKnown(log, s);
      EnqueueStands(s, e.data, policy);
    case _ => OthersKeepRequests(s, e.data, policy);
  }

  lemma AncestryIsReflexive(anc: Ancestry, a: string)
    requires IsAncestry(anc)
    ensures anc(a, a)
  {
  }

  // ---------------------------------------------------------------- results

  ghost predicate RunOf(log: Log, id: string, run: Run) {
    exists a <- Admissions(log) :: a.request.id == id && a.executor == run
  }

  /** A result is for an admitted request, from its executor, and says something permitted of exactly its suites. */
  ghost predicate Certified(log: Log, r: Request, o: Observation) {
    && o.requestId == r.id && o.target == r.target && o.policy == r.policy
    && RunOf(log, r.id, o.run)
    && o.outcomes.Keys == Elements(r.selection.suites)
    && forall suite <- o.outcomes :: AllowedOutcome(WorkloadOf(r, suite), o.outcomes[suite])
  }

  ghost predicate Recorded(log: Log, s: State) {
    forall id <- s.results :: id in s.requests && Certified(log, s.requests[id], s.results[id])
  }

  /** What is known stays known: requests and results are only ever added. */
  ghost predicate Extends(s: State, t: State) {
    && (forall id <- s.requests :: id in t.requests && t.requests[id] == s.requests[id])
    && (forall id <- s.results :: id in t.results && t.results[id] == s.results[id])
  }

  lemma OnlyReportsRecord(s: State, data: Data, policy: Policy)
    requires !data.Report?
    ensures var t := Transition(s, data, policy);
      t.Success? ==> t.value.results == s.results
  {
    hide Rebuilds, AutomaticAdmissible, RetryAdmissible, SettledDebts, FailuresAfter, Resumed;
  }

  lemma ReportKeeps(s: State, data: Data, policy: Policy)
    requires data.Report?
    ensures var t := Transition(s, data, policy);
      t.Success? ==> Reportable(s, data.observation)
                     && t.value == s.(results := s.results[data.observation.requestId := data.observation])
  {
  }

  /** No event rewrites a request or a result. */
  lemma NothingIsRewritten(log: Log, s: State, e: Event<Data>, policy: Policy)
    requires Booked(log, s) && Transition(s, e.data, policy).Success?
    ensures Extends(s, Transition(s, e.data, policy).value)
  {
    hide Transition, Booked;
    match e.data
    case Report(o) => ReportKeeps(s, e.data, policy);
    case Admit(r, _, _, _, terminal) =>
      AdmitKeeps(s, e.data, policy);
      NotAutomaticAgain(s, r, policy, terminal);
    case Enqueue(_) => EnqueueStands(s, e.data, policy);
    case _ =>
      OthersKeepRequests(s, e.data, policy);
      OnlyReportsRecord(s, e.data, policy);
  }

  lemma RunOfStands(log: Log, e: Event<Data>, id: string, run: Run)
    requires RunOf(log, id, run)
    ensures RunOf(log + [e], id, run)
  {
    hide Admissions;
    SnocFacts(log, e);
    var a :| a in Admissions(log) && a.request.id == id && a.executor == run;
    assert a in Admissions(log + [e]);
  }

  lemma ReportIsFaithful(log: Log, s: State, o: Observation)
    requires Booked(log, s) && ActiveIsNewest(log, s) && Reportable(s, o)
    ensures Certified(log, s.requests[o.requestId], o)
  {
    hide Admissions;
    var newest := Last(Admissions(log));
    assert newest in Admissions(log) && Known(s, newest);
  }

  lemma RecordedStep(log: Log, s: State, e: Event<Data>, policy: Policy)
    requires Booked(log, s) && ActiveIsNewest(log, s) && Recorded(log, s) && Transition(s, e.data, policy).Success?
    ensures Recorded(log + [e], Transition(s, e.data, policy).value)
  {
    hide Transition, Booked, ActiveIsNewest, AllowedOutcome, WorkloadOf, Reportable, RunOf;
    NothingIsRewritten(log, s, e, policy);
    var t := Transition(s, e.data, policy).value;
    if e.data.Report? {
      ReportKeeps(s, e.data, policy);
      ReportIsFaithful(log, s, e.data.observation);
    } else {
      OnlyReportsRecord(s, e.data, policy);
    }
    forall id | id in t.results ensures id in t.requests && Certified(log + [e], t.requests[id], t.results[id]) {
      var o := t.results[id];
      if e.data.Report? && id == e.data.observation.requestId {
        ReportActive(s, o);
        RunOfStands(log, e, s.requests[id].id, o.run);
      } else {
        RunOfStands(log, e, s.requests[id].id, o.run);
      }
    }
  }

  lemma ReportActive(s: State, o: Observation)
    requires Reportable(s, o)
    ensures o.requestId in s.requests
  {
  }

  // ---------------------------------------------------------------- retries

  /** A retry covers exactly what its candidate did not pass, at the same target and policy. */
  ghost predicate RetryHolds(s: State, r: Request) {
    && r.retryOf.Some?
    && var original := r.retryOf.value.request;
    && original in s.requests && original in s.results
    && s.requests[original].kind == Candidate
    && s.requests[original].target == r.target && s.requests[original].policy == r.policy
    && var outcomes := s.results[original].outcomes;
    && Elements(r.selection.suites) == set suite | suite in outcomes && outcomes[suite] != Passed
  }

  ghost predicate RetriesHold(s: State) {
    && (forall id <- s.requests | s.requests[id].kind == Retry :: RetryHolds(s, s.requests[id]))
    && (forall a <- s.requests, b <- s.requests, candidate: string
          | Retries(s.requests[a], candidate) && Retries(s.requests[b], candidate) :: a == b)
  }

  lemma RetryStands(s: State, t: State, r: Request)
    requires Extends(s, t) && RetryHolds(s, r)
    ensures RetryHolds(t, r)
  {
  }

  lemma EnqueuedRetry(log: Log, s: State, r: Request, policy: Policy)
    requires Booked(log, s) && EnqueueExplicit(s, r, policy).Success? && r.id !in s.requests && r.kind == Retry
    ensures RetryHolds(s, r)
    ensures forall id <- s.requests :: !Retries(s.requests[id], r.retryOf.value.request)
  {
    hide Rebuilds, Enqueued, Admitted;
  }

  lemma RetriesExtend(s: State, t: State, r: Request)
    requires RetriesHold(s) && Extends(s, t)
    requires t.requests == s.requests || (r.id !in s.requests && t.requests == s.requests[r.id := r])
    requires r.id !in s.requests && r.kind == Retry ==>
      RetryHolds(s, r) && forall id <- s.requests :: !Retries(s.requests[id], r.retryOf.value.request)
    ensures RetriesHold(t)
  {
    hide RetryHolds, Extends;
    forall id | id in t.requests && t.requests[id].kind == Retry ensures RetryHolds(t, t.requests[id]) {
      RetryStands(s, t, t.requests[id]);
    }
  }

  lemma RetriesStep(log: Log, s: State, e: Event<Data>, policy: Policy)
    requires Booked(log, s) && RetriesHold(s) && Transition(s, e.data, policy).Success?
    ensures RetriesHold(Transition(s, e.data, policy).value)
  {
    hide Booked, RetryHolds, EnqueueExplicit, AdmitBatch, Extends, RetriesHold;
    var t := Transition(s, e.data, policy).value;
    NothingIsRewritten(log, s, e, policy);
    match e.data
    case Enqueue(r) =>
      EnqueueKeeps(s, r, policy);
      if r.id !in s.requests && r.kind == Retry {
        EnqueuedRetry(log, s, r, policy);
      }
      RetriesExtend(s, t, r);
    case Admit(r, _, _, _, terminal) =>
      AdmitKeeps(s, e.data, policy);
      NotAutomaticAgain(s, r, policy, terminal);
      RetriesExtend(s, t, r);
    case _ =>
      OthersKeepRequests(s, e.data, policy);
      RetriesKeep(s, t);
  }

  lemma RetriesKeep(s: State, t: State)
    requires RetriesHold(s) && Extends(s, t) && t.requests == s.requests
    ensures RetriesHold(t)
  {
    hide RetryHolds;
    forall id | id in t.requests && t.requests[id].kind == Retry ensures RetryHolds(t, t.requests[id]) {
      RetryStands(s, t, t.requests[id]);
    }
  }

  // ---------------------------------------------------------------- verification debt

  /** A debt pauses at its second attempt, and only debt outcomes are owed. */
  ghost predicate Paced(s: State) {
    forall suite <- s.debts :: (s.debts[suite].paused <==> s.debts[suite].attempts >= 2) && IsDebt(s.debts[suite].outcome)
  }

  lemma OthersKeepDebts(s: State, data: Data, policy: Policy)
    requires !data.Advance? && !data.Resume?
    ensures var t := Transition(s, data, policy);
      t.Success? ==> t.value.debts == s.debts
  {
    hide Rebuilds, AutomaticAdmissible, RetryAdmissible, Reportable;
  }

  lemma PacedStep(s: State, e: Event<Data>, policy: Policy)
    requires Paced(s) && Transition(s, e.data, policy).Success?
    ensures Paced(Transition(s, e.data, policy).value)
  {
    if e.data.Advance? {
      hide AdvanceCursor;
      AdvanceKeeps(s, e.data.requestId);
    } else if !e.data.Resume? {
      hide Transition;
      OthersKeepDebts(s, e.data, policy);
    }
  }

  /** The one way a debt goes away: its suite ran at full workload in an advanced automatic batch, and passed or failed. */
  ghost predicate Clears(s: State, data: Data, suite: string) {
    && data.Advance? && data.requestId in s.requests && data.requestId in s.results
    && var r, o := s.requests[data.requestId], s.results[data.requestId];
    && !Explicit(r.kind) && WorkloadOf(r, suite) == W.Full
    && suite in o.outcomes && (o.outcomes[suite] == Passed || o.outcomes[suite] == Failed)
  }

  /** Debt is never lost, and only a resume that names the suite lifts a pause. */
  lemma DebtStep(log: Log, s: State, e: Event<Data>, policy: Policy, suite: string)
    requires Recorded(log, s) && Paced(s) && Transition(s, e.data, policy).Success?
    requires suite in s.debts
    ensures var t := Transition(s, e.data, policy).value;
      && (suite !in t.debts <==> Clears(s, e.data, suite))
      && (suite in t.debts && s.debts[suite].paused && !t.debts[suite].paused ==> e.data.Resume? && suite in e.data.suites)
  {
    hide Transition, Recorded, AdvanceCursor;
    if e.data.Advance? {
      AdvanceIs(s, e.data, policy);
      DebtAdvance(log, s, e.data.requestId, suite);
    } else if e.data.Resume? {
      ResumeIs(s, e.data, policy);
    } else {
      OthersKeepDebts(s, e.data, policy);
    }
  }

  lemma AdvanceIs(s: State, data: Data, policy: Policy)
    requires data.Advance?
    ensures Transition(s, data, policy) == AdvanceCursor(s, data.requestId)
  {
  }

  lemma ResumeIs(s: State, data: Data, policy: Policy)
    requires data.Resume?
    ensures var t := Transition(s, data, policy);
      t.Success? ==> t.value.debts == Resumed(s.debts, Elements(data.suites))
  {
  }

  lemma DebtAdvance(log: Log, s: State, id: string, suite: string)
    requires Recorded(log, s) && Paced(s) && AdvanceCursor(s, id).Success?
    requires suite in s.debts
    ensures var t := AdvanceCursor(s, id).value;
      && (suite !in t.debts <==> Clears(s, Advance(id), suite))
      && (suite in t.debts && s.debts[suite].paused ==> t.debts[suite].paused)
  {
    hide AdvanceCursor, RunOf;
    AdvanceKeeps(s, id);
    assert Certified(log, s.requests[id], s.results[id]);
  }

  /** An automatic batch carries every unpaused debt, at full workload. */
  lemma AdmissionCarriesDebt(s: State, e: Event<Data>, policy: Policy, suite: string)
    requires e.data.Admit? && !Explicit(e.data.request.kind) && Transition(s, e.data, policy).Success?
    requires suite in s.debts && !s.debts[suite].paused
    ensures suite in e.data.request.selection.suites
    ensures WorkloadOf(e.data.request, suite) == W.Full
  {
    hide Rebuilds, Union, Select;
    var r := e.data.request;
    AdmitKeeps(s, e.data, policy);
    assert suite in ExecutableDebt(s);
    assert RequiredSelection(s, policy, r.selection).Success?;
    var extra := Select(policy, ExecutableDebt(s), {CARRY});
    SelectIsExact(policy, ExecutableDebt(s), {CARRY});
    UnionMeans(policy, [r.selection, extra.value]);
    assert extra.value in [r.selection, extra.value];
    assert suite in Elements(r.selection.suites);
  }
}
