/** The scheduler's promises, for every log of events that replays. */
module SchedulerSafety {
  import opened Wrappers
  import opened Chain
  import opened Protocol
  import opened Scopes
  import opened Scheduler
  import opened SchedulerRuns
  import opened Sequences
  import opened SchedulerHistory

  /** Automatic batches are only ever admitted while no explicit request is waiting. */
  ghost predicate Yields(log: Log) {
    forall i | 0 <= i < |log| :: log[i].data.Admit? && !Explicit(log[i].data.request.kind) ==>
      ExplicitIds(Admissions(log[..i])) == Enqueued(log[..i])
  }

  lemma YieldsStep(log: Log, s: State, e: Event<Data>, policy: Policy)
    requires Conserved(log, s) && Yields(log) && Transition(s, e.data, policy).Success?
    ensures Yields(log + [e])
  {
    hide Transition, Admissions, Enqueued, ExplicitIds;
    var now := log + [e];
    forall i | 0 <= i < |now| && now[i].data.Admit? && !Explicit(now[i].data.request.kind)
      ensures ExplicitIds(Admissions(now[..i])) == Enqueued(now[..i])
    {
      if i < |log| {
        assert now[..i] == log[..i] && now[i] == log[i];
      } else {
        assert now[..i] == log;
        AdmitKeeps(s, e.data, policy);
        NotAutomaticAgain(s, e.data.request, policy, e.data.oldRunsTerminal);
        assert ExplicitIds(Admissions(log)) + [] == ExplicitIds(Admissions(log));
      }
    }
  }

  ghost predicate Sound(log: Log, epoch: string, s: State) {
    && Fenced(log, epoch, s)
    && Booked(log, s) && ActiveIsNewest(log, s) && Conserved(log, s) && AdmittedOnce(log) && Yields(log)
    && Tiled(log, s) && Recorded(log, s) && RetriesHold(s) && Paced(s)
    && OneAtATime(log, s) && s.blocked == IsBlocked(log) && Authorized(log)
    && s.pending == MainTip(log)
  }

  /** Bookkeeping of applied events is invisible to every other invariant. */
  lemma StampIsInvisible(log: Log, s: State, e: Event<Data>)
    ensures Booked(log, s) ==> Booked(log, Stamp(s, e))
    ensures ActiveIsNewest(log, s) ==> ActiveIsNewest(log, Stamp(s, e))
    ensures Conserved(log, s) ==> Conserved(log, Stamp(s, e))
    ensures Tiled(log, s) ==> Tiled(log, Stamp(s, e))
    ensures OneAtATime(log, s) ==> OneAtATime(log, Stamp(s, e))
    ensures Stamp(s, e).blocked == s.blocked && Stamp(s, e).pending == s.pending
  {
    hide Admissions, Enqueued, Tiles, Automatic, Admitted;
    if Booked(log, s) {
      forall a | a in Admissions(log) ensures Known(Stamp(s, e), a) {
        assert Known(s, a);
      }
    }
  }

  lemma StampKeepsRecords(log: Log, s: State, e: Event<Data>)
    ensures Recorded(log, s) ==> Recorded(log, Stamp(s, e))
    ensures RetriesHold(s) ==> RetriesHold(Stamp(s, e))
    ensures Paced(s) ==> Paced(Stamp(s, e))
  {
    hide Certified, RetryHolds;
    if RetriesHold(s) {
      var t := Stamp(s, e);
      forall id | id in t.requests && t.requests[id].kind == Retry ensures RetryHolds(t, t.requests[id]) {
        RetryStands(s, t, s.requests[id]);
      }
    }
  }

  lemma ReduceIs(s: State, e: Event<Data>, policy: Policy)
    requires e.id !in s.events && Reduce(s, e, policy).Success?
    ensures Transition(s, e.data, policy).Success?
    ensures Reduce(s, e, policy).value == Stamp(Transition(s, e.data, policy).value, e)
  {
    hide Transition;
  }

  lemma SoundStep(log: Log, epoch: string, s: State, e: Event<Data>, policy: Policy)
    requires Sound(log, epoch, s) && e.id !in s.events && Reduce(s, e, policy).Success?
    ensures Sound(log + [e], epoch, Reduce(s, e, policy).value)
  {
    hide Transition, Stamp, Reduce, Fenced, Booked, ActiveIsNewest, Conserved, AdmittedOnce, Yields, Tiled, Recorded, RetriesHold, Paced, OneAtATime, IsBlocked, Authorized, MainTip;
    ReduceIs(s, e, policy);
    var t := Transition(s, e.data, policy).value;
    FencedStep(log, epoch, s, e, policy);
    BookedStep(log, s, e, policy);
    ActiveStep(log, s, e, policy);
    ConservedStep(log, s, e, policy);
    AdmittedOnceStep(log, s, e, policy);
    YieldsStep(log, s, e, policy);
    TiledStep(log, s, e, policy);
    RecordedStep(log, s, e, policy);
    RetriesStep(log, s, e, policy);
    PacedStep(s, e, policy);
    OneAtATimeStep(log, s, e, policy);
    BlockedStep(log, s, e, policy);
    AuthorizedStep(log, s, e, policy);
    OnlyObserveMovesTip(s, e.data, policy);
    SnocFacts(log, e);
    StampIsInvisible(log + [e], t, e);
    StampKeepsRecords(log + [e], t, e);
  }

  lemma NewStateIsSound(epoch: string)
    ensures Sound([], epoch, NewState(epoch))
  {
    var s := NewState(epoch);
    assert Booked([], s) && ActiveIsNewest([], s) && Conserved([], s) && AdmittedOnce([]) && Tiled([], s);
  }

  ghost predicate Judged(log: Log, archive: Archive) {
    forall e <- log :: e.id != "" && PolicyFor(e.data, archive).Some?
  }

  /** One more event of a log, repeated or not. */
  lemma SoundMore(log: Log, epoch: string, s: State, e: Event<Data>, archive: Archive)
    requires Sound(log, epoch, s) && Judged(log, archive)
    ensures var t := Step(s, e, archive);
      && (e in log ==> t == Success(s))
      && (t.Success? && e !in log ==> e.id !in s.events && Sound(log + [e], epoch, t.value) && Judged(log + [e], archive))
  {
    hide Sound, Reduce;
    assert Fenced(log, epoch, s) by { SoundIsFenced(log, epoch, s); }
    if e in log {
      AppliedAgain(log, epoch, s, e, PolicyFor(e.data, archive).value);
    } else if Step(s, e, archive).Success? {
      var policy := PolicyFor(e.data, archive).value;
      ReducedHasId(s, e, policy);
      AppliedAgain(log, epoch, s, e, policy);
      SoundStep(log, epoch, s, e, policy);
    }
  }

  lemma SoundIsFenced(log: Log, epoch: string, s: State)
    requires Sound(log, epoch, s)
    ensures Fenced(log, epoch, s)
  {
  }

  lemma ReducedHasId(s: State, e: Event<Data>, policy: Policy)
    ensures Reduce(s, e, policy).Success? ==> e.id != ""
  {
    hide Transition;
  }

  /**
   * Folding a log with repeated events equals folding it without them, and the state it leads to keeps every
   * promise about the distinct events.
   */
  lemma {:induction false} RepeatsVanish(events: Log, epoch: string, archive: Archive)
    ensures var r := Replay(NewState(epoch), events, archive);
      && Replay(NewState(epoch), Distinct(events), archive) == r
      && (r.Success? ==> Sound(Distinct(events), epoch, r.value) && Judged(Distinct(events), archive))
      && (r.Success? ==> r.value.generation == |Distinct(events)|)
    decreases |events|
  {
    hide Sound, Step;
    var first := NewState(epoch);
    if events == [] {
      NewStateIsSound(epoch);
    } else {
      var before, e := Front(events), Last(events);
      assert events == before + [e];
      RepeatsVanish(before, epoch, archive);
      ReplaySnoc(first, before, e, archive);
      var s := Replay(first, before, archive);
      if s.Success? {
        SoundMore(Distinct(before), epoch, s.value, e, archive);
        ReplaySnoc(first, Distinct(before), e, archive);
      } else {
        ReplaySnoc(first, Distinct(before), e, archive);
      }
    }
    if Replay(first, events, archive).Success? {
      SoundIsFenced(Distinct(events), epoch, Replay(first, events, archive).value);
    }
  }

  lemma {:induction false} DistinctMembers(events: Log)
    ensures forall e :: e in Distinct(events) <==> e in events
    decreases |events|
  {
    if events != [] {
      DistinctMembers(Front(events));
      assert events == Front(events) + [Last(events)];
    }
  }

  /** A log whose events carry distinct identities, as the journal guarantees, has no repeats to drop. */
  lemma {:induction false} NothingToDrop(events: Log)
    requires UniqueIds(events)
    ensures Distinct(events) == events
    decreases |events|
  {
    if events != [] {
      var front, last := Front(events), Last(events);
      assert events == front + [last];
      assert UniqueIds(front) by {
        assert forall i | 0 <= i < |front| :: front[i] == events[i];
      }
      NothingToDrop(front);
      forall i | 0 <= i < |front| ensures front[i] != last {
        assert events[i].id != events[|front|].id;
      }
    }
  }

  // ---------------------------------------------------------------- the promises

  /** Queue conservation: admission is first-in first-out, once only, and no automatic batch overtakes a waiting request. */
  lemma {:induction false} QueueIsConserved(events: Log, epoch: string, archive: Archive, s: State)
    requires Replay(NewState(epoch), events, archive) == Success(s)
    ensures var log := Distinct(events);
      && ExplicitIds(Admissions(log)) + s.queue == Enqueued(log)
      && NoRepeats(Enqueued(log))
      && AdmittedOnce(log)
      && Yields(log)
  {
    RepeatsVanish(events, epoch, archive);
  }

  /** The advanced automatic batches form one gapless chain that ends at the cursor; explicit requests never move it. */
  lemma {:induction false} CursorTilesHistory(events: Log, epoch: string, archive: Archive, s: State)
    requires Replay(NewState(epoch), events, archive) == Success(s)
    ensures Tiles(Automatic(Finished(Distinct(events))), s.processed)
  {
    RepeatsVanish(events, epoch, archive);
  }

  /** With true ancestry assertions the cursor never passes the observed tip, and every automatic interval runs forward. */
  lemma {:induction false} CursorFollowsTip(events: Log, epoch: string, archive: Archive, s: State, anc: Ancestry)
    requires Replay(NewState(epoch), events, archive) == Success(s)
    requires IsAncestry(anc) && Honest(Distinct(events), anc)
    ensures Leads(anc, s.processed, s.pending)
    ensures forall r <- Automatic(Admissions(Distinct(events))) :: Leads(anc, r.base, Some(r.target))
  {
    OrderedReplay(events, epoch, archive, s, anc);
  }

  lemma {:induction false} OrderedReplay(events: Log, epoch: string, archive: Archive, s: State, anc: Ancestry)
    requires Replay(NewState(epoch), events, archive) == Success(s)
    requires IsAncestry(anc) && Honest(Distinct(events), anc)
    ensures Ordered(Distinct(events), s, anc)
    decreases |events|
  {
    hide Sound, Step, IsAncestry, Ordered, Honest, Distinct, Replay;
    DistinctGrows(events);
    if events == [] {
      NothingReplays(NewState(epoch), archive);
      NothingIsOrdered(epoch, anc);
    } else {
      var before, e := Front(events), Last(events);
      assert events == before + [e];
      ReplaySnoc(NewState(epoch), before, e, archive);
      var u := Replay(NewState(epoch), before, archive).value;
      RepeatsVanish(before, epoch, archive);
      SoundMore(Distinct(before), epoch, u, e, archive);
      if e !in Distinct(before) {
        HonestFront(Distinct(before), e, anc);
        OrderedReplay(before, epoch, archive, u, anc);
        OrderedMore(Distinct(before), epoch, u, e, archive, s, anc);
      } else {
        OrderedReplay(before, epoch, archive, u, anc);
      }
    }
  }

  lemma {:induction false} DistinctGrows(events: Log)
    ensures if events == [] then Distinct(events) == []
      else Distinct(events) == if Last(events) in Distinct(Front(events)) then Distinct(Front(events)) else Distinct(Front(events)) + [Last(events)]
  {
  }

  lemma {:induction false} NothingReplays(s: State, archive: Archive)
    ensures Replay(s, [], archive) == Success(s)
  {
  }

  lemma {:induction false} HonestFront(log: Log, e: Event<Data>, anc: Ancestry)
    requires Honest(log + [e], anc)
    ensures Honest(log, anc)
  {
    Snoc(log, e);
  }

  lemma NothingIsOrdered(epoch: string, anc: Ancestry)
    ensures Ordered([], NewState(epoch), anc)
  {
  }

  lemma {:induction false} OrderedMore(log: Log, epoch: string, u: State, e: Event<Data>, archive: Archive, s: State, anc: Ancestry)
    requires Sound(log, epoch, u) && e.id !in u.events && Step(u, e, archive) == Success(s)
    requires IsAncestry(anc) && Honest(log + [e], anc) && Ordered(log, u, anc)
    ensures Ordered(log + [e], s, anc)
  {
    hide Transition, Reduce, IsAncestry, Honest, Admissions, Automatic, MainTip, Booked, ActiveIsNewest;
    var policy := PolicyFor(e.data, archive).value;
    ReduceIs(u, e, policy);
    OrderedStep(log, u, e, policy, anc);
  }

  /** One heavy batch at a time: admitted batches finish in admission order, each before the next is admitted. */
  lemma {:induction false} BatchesDoNotOverlap(events: Log, epoch: string, archive: Archive, s: State)
    requires Replay(NewState(epoch), events, archive) == Success(s)
    ensures OneAtATime(Distinct(events), s)
    ensures |Finished(Distinct(events))| <= |Admissions(Distinct(events))| <= |Finished(Distinct(events))| + 1
  {
    RepeatsVanish(events, epoch, archive);
  }

  /** Every admission in a log was authorized when it was made. */
  lemma {:induction false} AdmissionsAreAuthorized(events: Log, epoch: string, archive: Archive, s: State)
    requires Replay(NewState(epoch), events, archive) == Success(s)
    ensures Authorized(Distinct(events))
  {
    RepeatsVanish(events, epoch, archive);
  }

  /** Every recorded result is for an admitted request, from its executor, about exactly its suites. */
  lemma {:induction false} ResultsAreFaithful(events: Log, epoch: string, archive: Archive, s: State, id: string)
    requires Replay(NewState(epoch), events, archive) == Success(s) && id in s.results
    ensures id in s.requests && Certified(Distinct(events), s.requests[id], s.results[id])
  {
    hide Certified;
    RepeatsVanish(events, epoch, archive);
  }

  /** A candidate is retried at most once, over exactly the suites it did not pass. */
  lemma {:induction false} CandidatesAreRetriedOnce(events: Log, epoch: string, archive: Archive, s: State)
    requires Replay(NewState(epoch), events, archive) == Success(s)
    ensures RetriesHold(s)
  {
    RepeatsVanish(events, epoch, archive);
  }

  /** A paused debt is exactly one with two or more attempts. */
  lemma {:induction false} DebtsArePaced(events: Log, epoch: string, archive: Archive, s: State)
    requires Replay(NewState(epoch), events, archive) == Success(s)
    ensures Paced(s)
  {
    RepeatsVanish(events, epoch, archive);
  }

  /** What one more event of a log can do to any sound state. */
  lemma {:induction false} ReplaySplit(s: State, a: Log, b: Log, archive: Archive)
    ensures var r := Replay(s, a, archive);
      Replay(s, a + b, archive) == if r.Failure? then Failure else Replay(r.value, b, archive)
    decreases |a|
  {
    hide Step;
    if a == [] {
      assert a + b == b;
    } else {
      assert (a + b)[1..] == a[1..] + b;
      var t := Step(s, a[0], archive);
      if t.Success? {
        ReplaySplit(t.value, a[1..], b, archive);
      }
    }
  }

  /** Results and requests are never rewritten, however the log goes on. */
  lemma {:induction false} RecordsStand(a: Log, b: Log, epoch: string, archive: Archive, s: State, t: State)
    requires Replay(NewState(epoch), a, archive) == Success(s)
    requires Replay(s, b, archive) == Success(t)
    ensures Extends(s, t)
    decreases |b|
  {
    hide Sound, Step;
    if b != [] {
      var u := Step(s, b[0], archive).value;
      assert a + [b[0]] + b[1..] == a + b;
      ReplaySnoc(NewState(epoch), a, b[0], archive);
      RecordsStand(a + [b[0]], b[1..], epoch, archive, u, t);
      StandsOneStep(a, epoch, archive, s, b[0]);
    }
  }

  lemma {:induction false} StandsOneStep(a: Log, epoch: string, archive: Archive, s: State, e: Event<Data>)
    requires Replay(NewState(epoch), a, archive) == Success(s) && Step(s, e, archive).Success?
    ensures Extends(s, Step(s, e, archive).value)
  {
    hide Transition, Reduce, Booked, Recorded, Paced, Extends, Sound, Replay;
    RepeatsVanish(a, epoch, archive);
    SoundMore(Distinct(a), epoch, s, e, archive);
    if e !in Distinct(a) {
      var policy := PolicyFor(e.data, archive).value;
      ReduceIs(s, e, policy);
      SoundIsBooked(Distinct(a), epoch, s);
      NothingIsRewritten(Distinct(a), s, e, policy);
      ExtendsStamp(s, Transition(s, e.data, policy).value, e);
    } else {
      ExtendsItself(s);
    }
  }

  lemma ExtendsStamp(s: State, t: State, e: Event<Data>)
    requires Extends(s, t)
    ensures Extends(s, Stamp(t, e))
  {
  }

  lemma ExtendsItself(s: State)
    ensures Extends(s, s)
  {
  }

  lemma SoundIsBooked(log: Log, epoch: string, s: State)
    requires Sound(log, epoch, s)
    ensures Booked(log, s) && Recorded(log, s) && Paced(s)
  {
  }

  /** Some event of `b`, applied where the log had got to, clears the debt. */
  ghost predicate ClearedWithin(s: State, b: Log, archive: Archive, suite: string) {
    exists i | 0 <= i < |b| :: Replay(s, b[..i], archive).Success? && Clears(Replay(s, b[..i], archive).value, b[i].data, suite)
  }

  /** A debt that is gone was cleared on the way by a full-workload passed or failed result. */
  lemma {:induction false} DebtIsNeverLost(a: Log, b: Log, epoch: string, archive: Archive, s: State, t: State, suite: string)
    requires Replay(NewState(epoch), a, archive) == Success(s)
    requires Replay(s, b, archive) == Success(t)
    requires suite in s.debts && suite !in t.debts
    ensures ClearedWithin(s, b, archive, suite)
    decreases |b|
  {
    hide Sound, Step, Clears;
    if b != [] {
      var u := Step(s, b[0], archive).value;
      ReplaySnoc(NewState(epoch), a, b[0], archive);
      if suite in u.debts {
        DebtIsNeverLost(a + [b[0]], b[1..], epoch, archive, u, t, suite);
        var i :| 0 <= i < |b[1..]| && Replay(u, b[1..][..i], archive).Success?
                 && Clears(Replay(u, b[1..][..i], archive).value, b[1..][i].data, suite);
        assert b[..i + 1] == [b[0]] + b[1..][..i];
        assert b[..i + 1][1..] == b[1..][..i];
        assert Replay(s, b[..i + 1], archive) == Replay(u, b[1..][..i], archive);
        assert b[i + 1] == b[1..][i];
      } else {
        ClearsOneStep(a, epoch, archive, s, b[0], suite);
        assert b[..0] == [];
        assert Replay(s, b[..0], archive) == Success(s);
      }
    }
  }

  lemma {:induction false} ClearsOneStep(a: Log, epoch: string, archive: Archive, s: State, e: Event<Data>, suite: string)
    requires Replay(NewState(epoch), a, archive) == Success(s) && Step(s, e, archive).Success?
    requires suite in s.debts && suite !in Step(s, e, archive).value.debts
    ensures Clears(s, e.data, suite)
  {
    hide Transition, Reduce, Recorded, Paced, Clears, Sound, Replay;
    RepeatsVanish(a, epoch, archive);
    SoundMore(Distinct(a), epoch, s, e, archive);
    SoundIsBooked(Distinct(a), epoch, s);
    var policy := PolicyFor(e.data, archive).value;
    ReduceIs(s, e, policy);
    DebtStep(Distinct(a), s, e, policy, suite);
  }

  // ---------------------------------------------------------------- claims

  /** The request can never be claimed anew: it was admitted and claimed, or its batch is over. */
  predicate Spent(s: State, id: string) {
    && id in s.requests && id !in s.queue
    && (s.active.Some? && s.active.value.requestId == id ==> s.active.value.claim.Some?)
  }

  lemma SpentStep(s: State, e: Event<Data>, archive: Archive, id: string)
    requires Spent(s, id) && Step(s, e, archive).Success?
    ensures Spent(Step(s, e, archive).value, id)
  {
    if e.id !in s.events {
      hide Transition, Reduce;
      var policy := PolicyFor(e.data, archive).value;
      ReduceIs(s, e, policy);
      SpentTransition(s, e.data, policy, id);
    }
  }

  lemma SpentTransition(s: State, data: Data, policy: Policy, id: string)
    requires Spent(s, id) && Transition(s, data, policy).Success?
    ensures Spent(Transition(s, data, policy).value, id)
  {
    hide EnqueueExplicit, AdmitBatch;
    match data
    case Admit(r, _, _, _, terminal) =>
      AdmitKeeps(s, data, policy);
      NotAutomaticAgain(s, r, policy, terminal);
    case Enqueue(r) => EnqueueKeeps(s, r, policy);
    case _ => OthersKeepRequests(s, data, policy);
  }

  /** Once spent, always spent: no continuation of the log brings back a claim that can be made. */
  lemma {:induction false} SpentForEver(s: State, events: Log, archive: Archive, t: State, id: string)
    requires Spent(s, id) && Replay(s, events, archive) == Success(t)
    ensures Spent(t, id)
    decreases |events|
  {
    hide Step, Spent;
    if events != [] {
      SpentStep(s, events[0], archive, id);
      SpentForEver(Step(s, events[0], archive).value, events[1..], archive, t, id);
    }
  }

  predicate Unclaimed(s: State, id: string) {
    s.active.Some? && s.active.value.requestId == id && s.active.value.claim.None?
  }

  /** The active batch has left the queue. */
  lemma ActiveHasLeftQueue(log: Log, epoch: string, s: State)
    requires Sound(log, epoch, s) && s.active.Some?
    ensures s.active.value.requestId in s.requests && s.active.value.requestId !in s.queue
    ensures s.requests[s.active.value.requestId].id == s.active.value.requestId
  {
    hide Admissions, Enqueued, ExplicitIds, Tiled, Recorded, RetriesHold, Paced, Yields, AdmittedOnce, Fenced, OneAtATime, Authorized, IsBlocked, MainTip;
    var newest := Last(Admissions(log));
    var id := s.active.value.requestId;
    assert newest in Admissions(log) && Known(s, newest);
    if id in s.queue {
      assert id in Enqueued(log) by {
        var j :| 0 <= j < |s.queue| && s.queue[j] == id;
        assert (ExplicitIds(Admissions(log)) + s.queue)[|ExplicitIds(Admissions(log))| + j] == id;
      }
      ExplicitIdsMember(Admissions(log), newest);
      RepeatedId(ExplicitIds(Admissions(log)), s.queue, id);
    }
  }

  /** The event at `i` is the one that first claims the request. */
  ghost predicate ClaimsAt(epoch: string, events: Log, archive: Archive, i: nat, id: string)
    requires i < |events|
  {
    var before, after := Replay(NewState(epoch), events[..i], archive), Replay(NewState(epoch), events[..i + 1], archive);
    && before.Success? && Unclaimed(before.value, id)
    && after.Success? && after.value.active.Some? && after.value.active.value.requestId == id && after.value.active.value.claim.Some?
  }

  /** Over a whole log every request is claimed for the first time at most once. */
  lemma ClaimedAtMostOnce(events: Log, epoch: string, archive: Archive, i: nat, j: nat, id: string)
    requires i < |events| && j < |events| && ClaimsAt(epoch, events, archive, i, id) && ClaimsAt(epoch, events, archive, j, id)
    ensures i == j
  {
    if i < j {
      ClaimedEarlier(events, epoch, archive, i, j, id);
    } else if j < i {
      ClaimedEarlier(events, epoch, archive, j, i, id);
    }
  }

  lemma ClaimedEarlier(events: Log, epoch: string, archive: Archive, i: nat, j: nat, id: string)
    requires i < j < |events| && ClaimsAt(epoch, events, archive, i, id)
    ensures !ClaimsAt(epoch, events, archive, j, id)
  {
    hide Sound, Replay, Distinct;
    var first := NewState(epoch);
    var until, between := events[..i + 1], events[i + 1..j];
    var claimed := Replay(first, until, archive).value;
    RepeatsVanish(until, epoch, archive);
    ActiveHasLeftQueue(Distinct(until), epoch, claimed);
    assert events[..j] == until + between;
    ReplaySplit(first, until, between, archive);
    var later := Replay(first, events[..j], archive);
    if later.Success? {
      SpentForEver(claimed, between, archive, later.value, id);
    }
  }

  // ---------------------------------------------------------------- what waits can be admitted

  /** Everything in the queue is an explicit request that rebuilds under the policy it froze. */
  ghost predicate QueueFits(s: State, archive: Archive) {
    forall id <- s.queue ::
      && id in s.requests
      && var r := s.requests[id];
      && r.id == id && Explicit(r.kind)
      && archive(r.control).Some? && Rebuilds(archive(r.control).value, r)
  }

  lemma QueueFitsStep(s: State, e: Event<Data>, archive: Archive)
    requires QueueFits(s, archive) && Step(s, e, archive).Success?
    ensures QueueFits(Step(s, e, archive).value, archive)
  {
    hide Transition, Rebuilds;
    var policy := PolicyFor(e.data, archive).value;
    if e.id !in s.events {
      TransitionFits(s, e.data, archive, policy);
    }
  }

  lemma TransitionFits(s: State, data: Data, archive: Archive, policy: Policy)
    requires QueueFits(s, archive) && PolicyFor(data, archive) == Some(policy) && Transition(s, data, policy).Success?
    ensures QueueFits(Transition(s, data, policy).value, archive)
  {
    hide Transition, Rebuilds, CarriesDebt;
    match data
    case Enqueue(r) =>
      EnqueueIs(s, data, policy);
      EnqueueKeeps(s, r, policy);
      EnqueueRebuilds(s, r, policy);
    case Admit(r, _, _, _, _) => AdmitKeeps(s, data, policy);
    case _ => OthersKeepRequests(s, data, policy);
  }

  lemma EnqueueRebuilds(s: State, r: Request, policy: Policy)
    ensures EnqueueExplicit(s, r, policy).Success? ==> Rebuilds(policy, r)
  {
    hide Rebuilds, RetryAdmissible;
  }

  /** Whatever was queued in a replayed log can still be admitted. */
  lemma {:induction false} WaitingFits(s: State, events: Log, archive: Archive)
    requires QueueFits(s, archive) && Replay(s, events, archive).Success?
    ensures QueueFits(Replay(s, events, archive).value, archive)
    decreases |events|
  {
    hide Step, QueueFits, Rebuilds;
    if events != [] {
      QueueFitsStep(s, events[0], archive);
      WaitingFits(Step(s, events[0], archive).value, events[1..], archive);
    }
  }
}
