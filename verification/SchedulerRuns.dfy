/** Whole runs of the scheduler: what a replayed log of events says about the state it leads to. */
module SchedulerRuns {
  import opened Wrappers
  import opened Chain
  import opened Scopes
  import opened Scheduler
  import opened Sequences

  type Log = seq<Event<Data>>

  /** The policy recorded at a control revision, if that revision can be authenticated. */
  type Archive = string -> Option<Policy>

  const NO_POLICY := Policy("", [], map[])

  /** Requests are judged by the policy they froze; no other event consults a policy. */
  function PolicyFor(data: Data, archive: Archive): Option<Policy> {
    match data
    case Enqueue(request) => archive(request.control)
    case Admit(request, _, _, _, _) => archive(request.control)
    case _ => Some(NO_POLICY)
  }

  function Step(s: State, e: Event<Data>, archive: Archive): Result<State> {
    var policy := PolicyFor(e.data, archive);
    if policy.None? then Failure else Reduce(s, e, policy.value)
  }

  function Replay(s: State, events: Log, archive: Archive): Result<State>
    decreases |events|
  {
    if events == [] then Success(s)
    else
      var t :- Step(s, events[0], archive);
      Replay(t, events[1..], archive)
  }

  lemma {:induction false} ReplaySnoc(s: State, events: Log, e: Event<Data>, archive: Archive)
    ensures var r := Replay(s, events, archive);
      Replay(s, events + [e], archive) == if r.Failure? then Failure else Step(r.value, e, archive)
    decreases |events|
  {
    hide Step;
    if events == [] {
      assert events + [e] == [e];
    } else {
      assert (events + [e])[1..] == events[1..] + [e];
      var t := Step(s, events[0], archive);
      if t.Success? {
        ReplaySnoc(t.value, events[1..], e, archive);
      }
    }
  }

  // ---------------------------------------------------------------- what a log says

  datatype Admission = Admission(request: Request, executor: Run)

  function Admissions(log: Log): seq<Admission> {
    if log == [] then []
    else
      var before := Admissions(Front(log));
      match Last(log).data
      case Admit(r, executor, _, _, _) => before + [Admission(r, executor)]
      case _ => before
  }

  /** The admissions that were advanced past: an advance always closes the newest admission. */
  function Finished(log: Log): seq<Admission> {
    if log == [] then []
    else
      var before := Finished(Front(log));
      var admitted := Admissions(Front(log));
      if Last(log).data.Advance? && admitted != [] then before + [Last(admitted)] else before
  }

  /** The distinct explicit request identities, in the order they were first enqueued. */
  function Enqueued(log: Log): seq<string> {
    if log == [] then []
    else
      var before := Enqueued(Front(log));
      match Last(log).data
      case Enqueue(r) => if r.id in before then before else before + [r.id]
      case _ => before
  }

  /** The newest observed main revision. */
  function MainTip(log: Log): Option<string> {
    if log == [] then None
    else
      match Last(log).data
      case Observe(target, _) => Some(target)
      case _ => MainTip(Front(log))
  }

  function ExplicitIds(admissions: seq<Admission>): seq<string> {
    if admissions == [] then []
    else
      var r := Last(admissions).request;
      ExplicitIds(Front(admissions)) + (if Explicit(r.kind) then [r.id] else [])
  }

  function Automatic(admissions: seq<Admission>): seq<Request> {
    if admissions == [] then []
    else
      var r := Last(admissions).request;
      Automatic(Front(admissions)) + (if Explicit(r.kind) then [] else [r])
  }

  function Distinct(events: Log): Log {
    if events == [] then []
    else
      var before := Distinct(Front(events));
      if Last(events) in before then before else before + [Last(events)]
  }

  predicate NoRepeats<T(==)>(xs: seq<T>) {
    forall i, j | 0 <= i < j < |xs| :: xs[i] != xs[j]
  }

  // ---------------------------------------------------------------- replay and fencing

  /** The state remembers exactly the applied events, each of which carried its own position. */
  ghost predicate Fenced(log: Log, epoch: string, s: State) {
    && s.epoch == epoch
    && s.generation == |log|
    && (forall i | 0 <= i < |log| :: log[i].generation == i && log[i].epoch == epoch && log[i].id in s.events && s.events[log[i].id] == log[i])
    && (forall id <- s.events :: s.events[id].id == id && s.events[id] in log)
  }

  lemma TransitionKeepsStamp(s: State, data: Data, policy: Policy)
    ensures var t := Transition(s, data, policy);
      t.Success? ==> t.value.epoch == s.epoch && t.value.generation == s.generation && t.value.events == s.events
  {
    hide Rebuilds, AutomaticAdmissible, RetryAdmissible, Reportable, SettledDebts, FailuresAfter, Resumed;
  }

  lemma FencedStep(log: Log, epoch: string, s: State, e: Event<Data>, policy: Policy)
    requires Fenced(log, epoch, s) && e.id !in s.events && Reduce(s, e, policy).Success?
    ensures Fenced(log + [e], epoch, Reduce(s, e, policy).value)
  {
    hide Transition;
    TransitionKeepsStamp(s, e.data, policy);
    var t := Reduce(s, e, policy).value;
    var now := log + [e];
    forall id | id in t.events ensures t.events[id].id == id && t.events[id] in now {
      if id != e.id {
        assert t.events[id] == s.events[id];
      }
    }
    forall i | 0 <= i < |now| ensures now[i].generation == i && now[i].epoch == epoch && now[i].id in t.events && t.events[now[i].id] == now[i] {
      if i < |log| {
        assert now[i] == log[i];
      }
    }
  }

  /** An event that was applied once is a no-op in every later state. */
  lemma AppliedAgain(log: Log, epoch: string, s: State, e: Event<Data>, policy: Policy)
    requires Fenced(log, epoch, s) && e.id != ""
    ensures e in log ==> Reduce(s, e, policy) == Success(s)
    ensures e !in log && e.id in s.events ==> Reduce(s, e, policy).Failure?
  {
    hide Transition;
    if e in log {
      var i :| 0 <= i < |log| && log[i] == e;
    }
    if e.id in s.events {
      assert s.events[e.id] in log;
    }
  }

  // ---------------------------------------------------------------- what one transition touches

  /** Events other than enqueue and admit leave requests and queue alone. */
  lemma OthersKeepRequests(s: State, data: Data, policy: Policy)
    requires !data.Enqueue? && !data.Admit?
    ensures var t := Transition(s, data, policy);
      t.Success? ==>
        && t.value.requests == s.requests
        && t.value.queue == s.queue
        && (t.value.active.Some? ==>
              && s.active.Some?
              && t.value.active.value.requestId == s.active.value.requestId
              && t.value.active.value.executorRun == s.active.value.executorRun
              && (t.value.active.value.claim == s.active.value.claim
                  || (data.Claim? && t.value.active.value.claim == Some(s.active.value.executorRun))))
  {
    hide Reportable, SettledDebts, FailuresAfter, Resumed;
  }

  lemma EnqueueKeeps(s: State, r: Request, policy: Policy)
    ensures var t := EnqueueExplicit(s, r, policy);
      t.Success? ==>
        && Explicit(r.kind)
        && (r.id in s.requests ==> t.value == s && s.requests[r.id] == r)
        && (r.id !in s.requests ==> t.value == s.(requests := s.requests[r.id := r], queue := s.queue + [r.id]))
  {
    hide Rebuilds, RetryAdmissible;
  }

  lemma EnqueueIs(s: State, data: Data, policy: Policy)
    requires data.Enqueue?
    ensures Transition(s, data, policy) == EnqueueExplicit(s, data.request, policy)
  {
  }

  lemma AdmitKeeps(s: State, data: Data, policy: Policy)
    requires data.Admit?
    ensures var t := Transition(s, data, policy);
      var r := data.request;
      t.Success? ==>
        && s.active.None?
        && (Explicit(r.kind) ==>
              && s.queue != [] && s.queue[0] == r.id && r.id in s.requests && s.requests[r.id] == r
              && t.value == s.(active := Some(Active(r.id, data.executorRun, None)), queue := s.queue[1..]))
        && (!Explicit(r.kind) ==>
              && AutomaticAdmissible(s, r, policy, data.oldRunsTerminal)
              && t.value == s.(active := Some(Active(r.id, data.executorRun, None)), requests := s.requests[r.id := r],
                               recoveryRequested := false))
  {
    hide Rebuilds, AutomaticAdmissible;
  }

  // ---------------------------------------------------------------- admissions and the queue

  ghost predicate Known(s: State, a: Admission) {
    a.request.id in s.requests && s.requests[a.request.id] == a.request
  }

  ghost predicate Admitted(log: Log, id: string) {
    exists a <- Admissions(log) :: a.request.id == id
  }

  /** Every known request was enqueued or admitted, and every admitted request is known. */
  ghost predicate Booked(log: Log, s: State) {
    && (forall id <- s.requests :: s.requests[id].id == id && (if Explicit(s.requests[id].kind) then id in Enqueued(log) else Admitted(log, id)))
    && (forall a <- Admissions(log) :: Known(s, a))
  }

  /** The active batch is the newest admission, and only its executor can hold the claim. */
  ghost predicate ActiveIsNewest(log: Log, s: State) {
    s.active.Some? ==>
      var active := s.active.value;
      && Admissions(log) != []
      && active.requestId == Last(Admissions(log)).request.id
      && active.executorRun == Last(Admissions(log)).executor
      && (active.claim.None? || active.claim == Some(active.executorRun))
  }

  /** Explicit admissions so far, then the queue, are the enqueued identities in order: nothing lost, reordered or repeated. */
  ghost predicate Conserved(log: Log, s: State) {
    && ExplicitIds(Admissions(log)) + s.queue == Enqueued(log)
    && NoRepeats(Enqueued(log))
    && (forall id <- Enqueued(log) :: id in s.requests && Explicit(s.requests[id].kind))
  }

  ghost predicate AdmittedOnce(log: Log) {
    forall i, j | 0 <= i < j < |Admissions(log)| :: Admissions(log)[i].request.id != Admissions(log)[j].request.id
  }

  lemma {:induction false} SnocFacts(log: Log, e: Event<Data>)
    ensures Admissions(log + [e]) ==
      match e.data { case Admit(r, executor, _, _, _) => Admissions(log) + [Admission(r, executor)] case _ => Admissions(log) }
    ensures Enqueued(log + [e]) ==
      match e.data { case Enqueue(r) => if r.id in Enqueued(log) then Enqueued(log) else Enqueued(log) + [r.id] case _ => Enqueued(log) }
    ensures MainTip(log + [e]) == match e.data { case Observe(target, _) => Some(target) case _ => MainTip(log) }
    ensures Finished(log + [e]) ==
      if e.data.Advance? && Admissions(log) != [] then Finished(log) + [Last(Admissions(log))] else Finished(log)
  {
    Snoc(log, e);
  }

  lemma {:induction false} AdmissionsSnoc(admissions: seq<Admission>, a: Admission)
    ensures ExplicitIds(admissions + [a]) == ExplicitIds(admissions) + (if Explicit(a.request.kind) then [a.request.id] else [])
    ensures Automatic(admissions + [a]) == Automatic(admissions) + (if Explicit(a.request.kind) then [] else [a.request])
  {
    Snoc(admissions, a);
  }

  lemma AdmittedMore(log: Log, e: Event<Data>, id: string)
    requires e.data.Admit?
    ensures Admitted(log + [e], id) <==> Admitted(log, id) || e.data.request.id == id
  {
    hide Admissions;
    SnocFacts(log, e);
    var before := Admissions(log);
    var now := before + [Admission(e.data.request, e.data.executorRun)];
    assert now[|before|] in now;
    assert forall a :: a in now <==> a in before || a == now[|before|];
  }

  /** Admitting adds no request, or exactly the automatic one it admits. */
  lemma BookedAdmit(log: Log, s: State, e: Event<Data>, policy: Policy)
    requires e.data.Admit? && Booked(log, s) && Transition(s, e.data, policy).Success?
    ensures Booked(log + [e], Transition(s, e.data, policy).value)
  {
    hide Transition, Admissions, Enqueued, AutomaticAdmissible, Admitted;
    SnocFacts(log, e);
    AdmitKeeps(s, e.data, policy);
    var t := Transition(s, e.data, policy).value;
    var r := e.data.request;
    NotAutomaticAgain(s, r, policy, e.data.oldRunsTerminal);
    forall id ensures Admitted(log + [e], id) <==> Admitted(log, id) || r.id == id {
      AdmittedMore(log, e, id);
    }
    forall a | a in Admissions(log) + [Admission(r, e.data.executorRun)] ensures Known(t, a) {
      if a in Admissions(log) {
        assert Known(s, a);
      }
    }
  }

  lemma AdmittedSame(log: Log, e: Event<Data>, id: string)
    requires !e.data.Admit?
    ensures Admitted(log + [e], id) <==> Admitted(log, id)
  {
    hide Admissions;
    SnocFacts(log, e);
  }

  lemma BookedEnqueue(log: Log, s: State, e: Event<Data>, policy: Policy)
    requires e.data.Enqueue? && Booked(log, s) && Transition(s, e.data, policy).Success?
    ensures Booked(log + [e], Transition(s, e.data, policy).value)
  {
    hide Admissions, Enqueued, EnqueueExplicit, Admitted;
    SnocFacts(log, e);
    EnqueueKeeps(s, e.data.request, policy);
    forall id ensures Admitted(log + [e], id) <==> Admitted(log, id) {
      AdmittedSame(log, e, id);
    }
    assert forall a | Known(s, a) :: Known(Transition(s, e.data, policy).value, a);
  }

  lemma BookedStep(log: Log, s: State, e: Event<Data>, policy: Policy)
    requires Booked(log, s) && Transition(s, e.data, policy).Success?
    ensures Booked(log + [e], Transition(s, e.data, policy).value)
  {
    hide Transition, Admissions, Enqueued;
    match e.data
    case Admit(_, _, _, _, _) => BookedAdmit(log, s, e, policy);
    case Enqueue(_) => BookedEnqueue(log, s, e, policy);
    case _ =>
      SnocFacts(log, e);
      OthersKeepRequests(s, e.data, policy);
      assert forall id | Admitted(log, id) :: Admitted(log + [e], id);
      assert forall a | Known(s, a) :: Known(Transition(s, e.data, policy).value, a);
  }

  lemma NotAutomaticAgain(s: State, r: Request, policy: Policy, oldRunsTerminal: bool)
    ensures AutomaticAdmissible(s, r, policy, oldRunsTerminal) ==> r.id !in s.requests && s.queue == []
  {
  }

  lemma ActiveAdmit(log: Log, s: State, e: Event<Data>, policy: Policy)
    requires e.data.Admit? && Transition(s, e.data, policy).Success?
    ensures ActiveIsNewest(log + [e], Transition(s, e.data, policy).value)
  {
    hide Admissions, Transition, AutomaticAdmissible;
    SnocFacts(log, e);
    AdmitKeeps(s, e.data, policy);
    Snoc(Admissions(log), Admission(e.data.request, e.data.executorRun));
  }

  lemma ActiveStep(log: Log, s: State, e: Event<Data>, policy: Policy)
    requires ActiveIsNewest(log, s) && Transition(s, e.data, policy).Success?
    ensures ActiveIsNewest(log + [e], Transition(s, e.data, policy).value)
  {
    hide Admissions, Enqueued, Transition, EnqueueExplicit;
    if e.data.Admit? {
      ActiveAdmit(log, s, e, policy);
    } else {
      SnocFacts(log, e);
      assert Admissions(log + [e]) == Admissions(log);
      if e.data.Enqueue? {
        EnqueueIs(s, e.data, policy);
        EnqueueKeeps(s, e.data.request, policy);
      } else {
        OthersKeepRequests(s, e.data, policy);
      }
    }
  }

  lemma ConservedAdmit(log: Log, s: State, e: Event<Data>, policy: Policy)
    requires e.data.Admit? && Conserved(log, s) && Transition(s, e.data, policy).Success?
    ensures Conserved(log + [e], Transition(s, e.data, policy).value)
  {
    hide Transition, Admissions, Enqueued, ExplicitIds, NoRepeats;
    SnocFacts(log, e);
    var ids, r := ExplicitIds(Admissions(log)), e.data.request;
    AdmitKeeps(s, e.data, policy);
    AdmissionsSnoc(Admissions(log), Admission(r, e.data.executorRun));
    NotAutomaticAgain(s, r, policy, e.data.oldRunsTerminal);
    assert s.queue != [] ==> s.queue == [s.queue[0]] + s.queue[1..];
    if Explicit(r.kind) {
      assert (ids + [r.id]) + s.queue[1..] == ids + s.queue;
    } else {
      assert ids + [] == ids;
    }
  }

  lemma ConservedEnqueue(log: Log, s: State, e: Event<Data>, policy: Policy)
    requires e.data.Enqueue? && Booked(log, s) && Conserved(log, s) && Transition(s, e.data, policy).Success?
    ensures Conserved(log + [e], Transition(s, e.data, policy).value)
  {
    hide Admissions, Enqueued, ExplicitIds, EnqueueExplicit;
    SnocFacts(log, e);
    var ids, r := ExplicitIds(Admissions(log)), e.data.request;
    EnqueueKeeps(s, r, policy);
    assert r.id in s.requests <==> r.id in Enqueued(log);
    assert ids + (s.queue + [r.id]) == (ids + s.queue) + [r.id];
  }

  lemma ConservedStep(log: Log, s: State, e: Event<Data>, policy: Policy)
    requires Booked(log, s) && Conserved(log, s) && Transition(s, e.data, policy).Success?
    ensures Conserved(log + [e], Transition(s, e.data, policy).value)
  {
    hide Transition, Admissions, Enqueued, ExplicitIds, NoRepeats;
    match e.data
    case Admit(_, _, _, _, _) => ConservedAdmit(log, s, e, policy);
    case Enqueue(_) => ConservedEnqueue(log, s, e, policy);
    case _ =>
      SnocFacts(log, e);
      OthersKeepRequests(s, e.data, policy);
  }

  lemma {:induction false} ExplicitIdsMember(admissions: seq<Admission>, a: Admission)
    requires a in admissions && Explicit(a.request.kind)
    ensures a.request.id in ExplicitIds(admissions)
    decreases |admissions|
  {
    if a != Last(admissions) {
      ExplicitIdsMember(Front(admissions), a);
    }
  }

  lemma AdmittedOnceStep(log: Log, s: State, e: Event<Data>, policy: Policy)
    requires Booked(log, s) && Conserved(log, s) && AdmittedOnce(log) && Transition(s, e.data, policy).Success?
    ensures AdmittedOnce(log + [e])
  {
    hide Admissions, Enqueued, Transition, ExplicitIds;
    SnocFacts(log, e);
    if e.data.Admit? {
      var r := e.data.request;
      AdmitKeeps(s, e.data, policy);
      NotAutomaticAgain(s, r, policy, e.data.oldRunsTerminal);
      forall a | a in Admissions(log) ensures a.request.id != r.id {
        assert Known(s, a);
        if Explicit(r.kind) && a.request.id == r.id {
          ExplicitIdsMember(Admissions(log), a);
          RepeatedId(ExplicitIds(Admissions(log)), s.queue, r.id);
        }
      }
    }
  }

  lemma RepeatedId(a: seq<string>, b: seq<string>, x: string)
    requires NoRepeats(a + b)
    ensures x in a ==> x !in b
  {
    if x in a {
      var all := a + b;
      var i :| 0 <= i < |a| && a[i] == x;
      assert all[i] == x;
      forall j | 0 <= j < |b| ensures b[j] != x {
        assert all[|a| + j] == b[j];
      }
    }
  }
}
