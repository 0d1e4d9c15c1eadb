/** Whole runs of the scheduler: any number of processes on one journal, in any interleaving of calls, crashes and landings. */
module SchedulerFleet {
  import opened Wrappers
  import opened Chain
  import opened Protocol
  import opened Journals
  import opened Scheduler
  import opened SchedulerRuns
  import opened Sequences
  import opened SchedulerHistory
  import opened SchedulerSafety
  import opened Controllers

  /**
   * What happens next: a process starts, reconciles or clears a stranded intent, or a POST lands. A process that
   * crashes is one that takes no further turn; its last call ends in a lost write.
   */
  datatype Turn =
    | Start(run: Run, epoch: Option<string>)
    | Tick(process: nat, explicit: Option<Request>, resume: Option<Command>, allow: bool, ports: Ports)
    | Drain(process: nat, expected: Digest<Data>, net: Network<Data>)
    | Environment(action: Action<Data>)
    | Glance(net: Network<Data>)
    | ReadOn(glance: nat, net: Network<Data>)

  /** The surroundings of every turn meet the controller's assumptions. */
  ghost predicate Proper(turn: Turn, truth: Archive, genuine: Authenticate<Data>) {
    && (turn.Tick? ==> Usable(turn.ports, truth, genuine))
    && (turn.ReadOn? ==> Faithful(turn.net, genuine))
    && (turn.Drain? ==> Faithful(turn.net, genuine))
  }

  ghost predicate Sincere(turn: Turn, anc: Ancestry) {
    turn.Tick? ==> Truthful(turn.ports, anc)
  }

  /** An execution that was handed out; `at` is the length of the committed log at that moment. */
  datatype Execution = Execution(id: string, run: Run, at: nat)

  /** The execution stands directly after the event that first claims its request, for the very run it was handed to. */
  ghost predicate Backed(log: Log, truth: Archive, x: Execution) {
    && 0 < x.at <= |log|
    && log[x.at - 1].data == Claim(x.id, x.run)
    && ClaimsAt(log[0].epoch, log, truth, x.at - 1, x.id)
  }

  /** Every execution is backed, in the order of the claims. */
  ghost predicate AllBacked(log: Log, truth: Archive, handed: seq<Execution>) {
    && (forall x <- handed :: Backed(log, truth, x))
    && (forall i, j | 0 <= i < j < |handed| :: handed[i].at < handed[j].at)
  }

  function Requested(handed: seq<Execution>): seq<string> {
    seq(|handed|, i requires 0 <= i < |handed| => handed[i].id)
  }

  lemma BackedStands(a: Log, b: Log, truth: Archive, handed: seq<Execution>)
    requires a <= b && AllBacked(a, truth, handed)
    ensures AllBacked(b, truth, handed)
  {
    hide Replay, Unclaimed;
    forall x | x in handed ensures Backed(b, truth, x) {
      assert Backed(a, truth, x);
      assert a[..x.at - 1] == b[..x.at - 1] && a[..x.at - 1 + 1] == b[..x.at - 1 + 1];
    }
  }

  lemma ClaimTakesEffect(s: State, e: Event<Data>, archive: Archive, id: string)
    requires Unclaimed(s, id) && e.data.Claim? && e.data.requestId == id
    requires Step(s, e, archive).Success? && Spent(Step(s, e, archive).value, id)
    ensures var t := Step(s, e, archive).value; t.active.Some? && t.active.value.requestId == id && t.active.value.claim.Some?
  {
  }

  /** A claim that the call was justified in making, and that spent its request, was the first. */
  lemma ClaimIsFirst(c: Call, log: Log, truth: Archive, id: string)
    requires Accounted(c, log) && |c.base| < |log| && Last(log).data == Claim(id, c.run)
    requires Agrees(c.ports.archive, truth) && Replayable(log, truth) && SpentIn(log, id, truth)
    ensures Backed(log, truth, Execution(id, c.run, |log|))
  {
    hide Replay, Step, Spent, Justified;
    var front, e, i := Front(log), Last(log), |log| - 1;
    assert log[..i] == front && log[..i + 1] == log == front + [e];
    assert Justified(log[i].data, log[..i], c);
    ClaimIsOpen(c, front, id);
    var s := Reconstruct(front, c.epoch, c.ports.archive).value;
    ReplayUnderTruth(NewState(log[0].epoch), front, c.ports.archive, truth);
    ReplaySnoc(NewState(log[0].epoch), front, e, truth);
    ClaimTakesEffect(s, e, truth, id);
  }

  lemma {:induction false} ClaimIsOpen(c: Call, front: Log, id: string)
    requires Justified(Claim(id, c.run), front, c)
    ensures front != []
    ensures var r := Reconstruct(front, c.epoch, c.ports.archive);
      r.Success? && r == Replay(NewState(front[0].epoch), front, c.ports.archive) && Unclaimed(r.value, id)
  {
  }

  lemma BackedInside(log: Log, truth: Archive, handed: seq<Execution>)
    requires AllBacked(log, truth, handed)
    ensures forall x <- handed :: x.at <= |log|
  {
    forall x | x in handed ensures x.at <= |log| {
      assert Backed(log, truth, x);
    }
  }

  lemma OneMoreBacked(c: Call, before: World<Data>, now: World<Data>, truth: Archive, handed: seq<Execution>, id: string)
    requires Anchored(before) && c.base == Loaded(before) && AllBacked(Committed(before), truth, handed)
    requires now.checkpoint.pending.None? && Accounted(c, Loaded(now))
    requires c.base < Committed(now) && Last(Committed(now)).data == Claim(id, c.run)
    requires Agrees(c.ports.archive, truth) && Intact(now, Requested(handed) + [id], truth)
    ensures var more := handed + [Execution(id, c.run, |Committed(now)|)];
      AllBacked(Committed(now), truth, more) && Requested(more) == Requested(handed) + [id]
  {
    hide Backed, Accounted, Agrees, Replayable, SpentIn, NoRepeats;
    LoadedIsSound(before);
    BackedInside(Committed(before), truth, handed);
    BackedStands(Committed(before), Committed(now), truth, handed);
    assert id in Requested(handed) + [id];
    ClaimIsFirst(c, Committed(now), truth, id);
  }

  lemma StaysHonest(c: Call, before: World<Data>, now: World<Data>, anc: Ancestry)
    requires Accounted(c, Loaded(now)) && c.base == Loaded(before) && Anchored(now)
    requires now == before || Loaded(before) <= Committed(now)
    requires Truthful(c.ports, anc) && Honest(Loaded(before), anc)
    ensures Honest(Loaded(now), anc)
  {
    hide Accounted, Truthful, Honest;
    LoadedIsSound(now);
    CallsStayHonest(c, Loaded(now), anc);
  }

  lemma LoadedIsSound(w: World<Data>)
    requires Anchored(w)
    ensures Committed(w) <= Loaded(w) && UniqueIds(Loaded(w))
  {
    CommittedIsLoaded(w);
  }

  /** The anchor is that of an earlier moment of the run. */
  ghost predicate Seen(anchor: Checkpoint<Data>, moment: seq<Action<Data>>, trace: seq<Action<Data>>) {
    moment <= trace && Legal(Initial(), moment) && anchor == After(Initial(), moment).checkpoint
  }

  // ---------------------------------------------------------------- the processes

  class Fleet {
    const store: Store<Data>
    const ledger: Ledger
    var processes: seq<Controller>
    ghost var handed: seq<Execution>
    /** What readers without the lock have peeked at, and when. */
    var anchors: seq<Checkpoint<Data>>
    ghost var moments: seq<seq<Action<Data>>>

    ghost predicate Valid()
      reads this, store, ledger, processes, set p | p in processes :: p.journal
    {
      && Running()
      && Intact(store.world, ledger.issued, ledger.truth)
      && AllBacked(Committed(store.world), ledger.truth, handed)
      && ledger.issued == Requested(handed)
      && |anchors| == |moments|
      && forall i | 0 <= i < |anchors| :: Seen(anchors[i], moments[i], store.trace)
    }

    ghost function Footprint(): set<object>
      reads this
    {
      {this, store, ledger} + (set p | p in processes) + (set p | p in processes :: p.journal)
    }

    /** Every process has its own journal client on the one store. */
    ghost predicate Running()
      reads this, store, ledger, processes, set p | p in processes :: p.journal
    {
      && store.Valid()
      && (forall p <- processes :: p.journal.store == store && p.ledger == ledger && p.journal.Valid())
      && (forall i, j | 0 <= i < j < |processes| :: processes[i].journal != processes[j].journal)
    }

    constructor (ghost truth: Archive, ghost genuine: Authenticate<Data>)
      ensures store.genuine == genuine && anchors == []
      ensures Valid() && fresh(Footprint()) && ledger.truth == truth
      ensures processes == [] && handed == [] && store.world == Initial()
    {
      store := new Store(genuine);
      ledger := new Ledger(truth);
      processes, handed, anchors, moments := [], [], [], [];
      new;
      IntactInitially(truth);
    }

    method Launch(run: Run, epoch: Option<string>)
      requires Valid()
      modifies this`processes
      ensures Valid() && handed == old(handed)
      ensures |processes| == |old(processes)| + 1 && fresh(processes[|old(processes)|]) && fresh(processes[|old(processes)|].journal)
      ensures processes[..|old(processes)|] == old(processes)
    {
      hide Intact, AllBacked;
      var journal := new Journal(store);
      var process := new Controller(journal, ledger, run, epoch);
      processes := processes + [process];
    }

    /** What one process does to the journal leaves the caches of the others good. */
    twostate lemma StillRunning()
      requires old(Running()) && processes == old(processes) && store.Valid() && old(store.trace) <= store.trace
      requires forall p <- processes :: p.journal.Valid() || p.journal.verified == old(p.journal.verified)
      ensures Running()
      ensures old(Committed(store.world)) <= Committed(store.world) && Anchored(store.world)
    {
      hide Cached;
      store.NeverForks(old(store.trace));
      forall p | p in processes ensures p.journal.Valid() {
        if !p.journal.Valid() && p.journal.verified.Some? {
          CacheOutlives(p.journal.verified.value, old(store.world.comments), store.world.comments);
        }
      }
    }

    /** One call of one process. An execution it hands out joins the record, directly after its own first claim. */
    method Tick(process: nat, explicit: Option<Request>, resume: Option<Command>, allow: bool, ports: Ports, ghost anc: Ancestry)
      returns (r: Result<Answer>)
      requires Valid() && process < |processes| && Usable(ports, ledger.truth, store.genuine)
      modifies this`handed, processes, set p | p in processes :: p.journal, store, ledger`issued
      ensures Valid() && processes == old(processes)
      ensures old(store.trace) <= store.trace
      ensures if r.Success? && r.value.action == Execute
        then allow && r.value.request.Some?
             && handed == old(handed) + [Execution(r.value.request.value.id, processes[process].run, |Committed(store.world)|)]
        else handed == old(handed)
      ensures Truthful(ports, anc) && Honest(old(Loaded(store.world)), anc) ==> Honest(Loaded(store.world), anc)
    {
      hide Intact, AllBacked, Accounted, Agrees, Truthful, Honest, Spent, Cached, Reconstruct, Anchored, Requested, Linked, Records, Legal, After;
      var p := processes[process];
      ghost var before := store.world;
      store.Sound();
      ghost var call := Call(ports, p.run, p.epoch, explicit, resume, allow, Loaded(before));
      r := p.Reconcile(explicit, resume, allow, ports);
      StillRunning();
      BackedStands(Committed(before), Committed(store.world), ledger.truth, handed);
      if Truthful(ports, anc) && Honest(Loaded(before), anc) {
        StaysHonest(call, before, store.world, anc);
      }
      if r.Success? && r.value.action == Execute {
        var id := r.value.request.value.id;
        OneMoreBacked(call, before, store.world, ledger.truth, handed, id);
        handed := handed + [Execution(id, p.run, |Committed(store.world)|)];
      }
    }

    /** An operator clears a stranded intent. */
    method Drain(process: nat, expected: Digest<Data>, net: Network<Data>, ghost anc: Ancestry)
      requires Valid() && process < |processes| && Faithful(net, store.genuine)
      modifies set p | p in processes :: p.journal, store
      ensures Valid() && processes == old(processes) && handed == old(handed) && old(store.trace) <= store.trace
      ensures Honest(old(Loaded(store.world)), anc) ==> Honest(Loaded(store.world), anc)
    {
      hide Intact, AllBacked, Honest, Cached, Anchored, Linked, Records, Legal, After;
      ghost var before := store.world;
      var journal := processes[process].journal;
      var cleared := journal.ReconcilePending(expected, net);
      StillRunning();
      LosesNothing(before, anc);
    }

    /** Steps that only commit or drop what was intended keep every promise. */
    lemma LosesNothing(before: World<Data>, anc: Ancestry)
      requires Within(before, store.world, Loaded(before)) && Intact(before, ledger.issued, ledger.truth)
      requires AllBacked(Committed(before), ledger.truth, handed)
      ensures Intact(store.world, ledger.issued, ledger.truth) && AllBacked(Committed(store.world), ledger.truth, handed)
      ensures Honest(Loaded(before), anc) ==> Honest(Loaded(store.world), anc)
    {
      hide Intact, Replayable, AllBacked, Honest;
      IntactIs(before, ledger.issued, ledger.truth);
      IntactStays(before, store.world, Loaded(before), ledger.issued, ledger.truth);
      BackedStands(Committed(before), Committed(store.world), ledger.truth, handed);
      if Honest(Loaded(before), anc) {
        HonestPart(Loaded(store.world), Loaded(before), anc);
      }
    }

    /** Something lands, or somebody comments. */
    method Disturb(action: Action<Data>, ghost anc: Ancestry)
      requires Valid()
      modifies store
      ensures Valid() && processes == old(processes) && handed == old(handed) && old(store.trace) <= store.trace
      ensures Honest(old(Loaded(store.world)), anc) ==> Honest(Loaded(store.world), anc)
    {
      hide Intact, AllBacked, Honest, Cached, Anchored, Linked, Records, Legal, After;
      ghost var before := store.world;
      store.Disturb(action);
      StillRunning();
      LosesNothing(before, anc);
    }

    /** A reader without the lock peeks at the anchor, and will read later. */
    method Glance(net: Network<Data>)
      requires Valid()
      modifies this`anchors, this`moments
      ensures Valid()
      ensures if net.trusted
        then moments == old(moments) + [store.trace] && anchors == old(anchors) + [store.world.checkpoint]
        else moments == old(moments) && anchors == old(anchors)
    {
      hide Intact, AllBacked, Cached, Anchored, Linked, Records;
      var journal := new Journal(store);
      var anchor, moment := journal.Peek(net);
      if anchor.Some? {
        anchors, moments := anchors + [anchor.value], moments + [moment];
      }
    }

    /** The reader's pages, whatever happened since: exactly what was committed at the glance, all of it genuine. */
    method ReadOn(glance: nat, net: Network<Data>) returns (r: Result<Log>)
      requires Valid() && glance < |anchors| && Faithful(net, store.genuine)
      ensures Valid()
      ensures r.Success? ==>
        && r.value == Committed(After(Initial(), moments[glance])) <= Committed(store.world)
        && AllAuthentic(store.world.comments, store.genuine)
    {
      hide Intact, AllBacked, Cached, Anchored, Linked, Records;
      var journal := new Journal(store);
      r := journal.ReadCommitted(anchors[glance], moments[glance], net);
    }

    /** What a valid fleet promises of its committed history. */
    lemma Promises(anc: Ancestry)
      requires Valid()
      ensures var log := Committed(store.world);
        && (log != [] ==> exists s :: Replays(log, ledger.truth, s))
        && ExecutedOnce(log, ledger.truth, handed)
        && (IsAncestry(anc) && Honest(Loaded(store.world), anc) ==>
              forall s | Replays(log, ledger.truth, s) :: Leads(anc, s.processed, s.pending))
    {
      hide IsAncestry, Honest, AllBacked, Replay;
      store.Sound();
      var w := store.world;
      LoadedIsSound(w);
      UniquePart(Committed(w), Loaded(w));
      ReplayablePrefix(Committed(w), Loaded(w), ledger.truth);
      BackedOnce(Committed(w), ledger.truth, handed);
      if Committed(w) != [] {
        assert Replays(Committed(w), ledger.truth, Replay(NewState(Committed(w)[0].epoch), Committed(w), ledger.truth).value);
      }
      if IsAncestry(anc) && Honest(Loaded(w), anc) {
        HonestPart(Committed(w), Loaded(w), anc);
        forall s | Replays(Committed(w), ledger.truth, s) ensures Leads(anc, s.processed, s.pending) {
          HonestTip(Committed(w), ledger.truth, s, anc);
        }
      }
    }

    /** One turn; a turn that cannot be taken changes nothing. */
    method Take(turn: Turn, ghost anc: Ancestry)
      requires Valid() && Proper(turn, ledger.truth, store.genuine)
      modifies Footprint()
      ensures Valid() && old(store.trace) <= store.trace
      ensures old(handed) <= handed
      ensures fresh(Footprint() - old(Footprint()))
      ensures Sincere(turn, anc) && Honest(old(Loaded(store.world)), anc) ==> Honest(Loaded(store.world), anc)
    {
      hide Intact, AllBacked, Honest, Cached, Anchored, Linked, Records, Legal, After, Truthful, Usable;
      match turn
      case Start(run, epoch) =>
        Launch(run, epoch);
      case Tick(process, explicit, resume, allow, ports) =>
        if process < |processes| {
          var answer := Tick(process, explicit, resume, allow, ports, anc);
        }
      case Drain(process, expected, net) =>
        if process < |processes| {
          Drain(process, expected, net, anc);
        }
      case Environment(action) =>
        Disturb(action, anc);
      case Glance(net) =>
        Glance(net);
      case ReadOn(glance, net) =>
        if glance < |anchors| {
          var history := ReadOn(glance, net);
        }
    }
  }

  // ---------------------------------------------------------------- whole runs

  ghost predicate Replays(log: Log, truth: Archive, s: State) {
    log != [] && Replay(NewState(log[0].epoch), log, truth) == Success(s)
  }

  /** Executions match first claims one to one, and no request is executed twice. */
  ghost predicate ExecutedOnce(log: Log, truth: Archive, handed: seq<Execution>) {
    && AllBacked(log, truth, handed)
    && (forall i, j | 0 <= i < j < |handed| :: handed[i].id != handed[j].id)
    && (forall x <- handed, i: nat | i < |log| && ClaimsAt(log[0].epoch, log, truth, i, x.id) :: i == x.at - 1)
  }

  lemma BackedOnce(log: Log, truth: Archive, handed: seq<Execution>)
    requires AllBacked(log, truth, handed) && NoRepeats(Requested(handed))
    ensures ExecutedOnce(log, truth, handed)
  {
    hide ClaimsAt;
    forall x, i: nat | x in handed && i < |log| && ClaimsAt(log[0].epoch, log, truth, i, x.id) ensures i == x.at - 1 {
      assert Backed(log, truth, x);
      ClaimedAtMostOnce(log, log[0].epoch, truth, i, x.at - 1, x.id);
    }
    forall i, j | 0 <= i < j < |handed| ensures handed[i].id != handed[j].id {
      assert Requested(handed)[i] != Requested(handed)[j];
    }
  }

  lemma {:induction false} HonestTip(log: Log, truth: Archive, s: State, anc: Ancestry)
    requires UniqueIds(log) && Replays(log, truth, s) && IsAncestry(anc) && Honest(log, anc)
    ensures Leads(anc, s.processed, s.pending)
  {
    hide Replay, IsAncestry, Honest;
    NothingToDrop(log);
    CursorFollowsTip(log, log[0].epoch, truth, s, anc);
  }

  lemma NothingIsHonest(anc: Ancestry)
    ensures Honest(Loaded(Initial()), anc)
  {
  }

  /**
   * From an empty journal, through any turns of any processes: what is committed replays, every execution that was
   * handed out stands directly after the only first claim of its request, and none is handed out twice. Every committed record was
   * written by a genuine writer. If every
   * ancestry answer was true, the cursor leads to the newest observed tip.
   */
  method Serve(turns: seq<Turn>, truth: Archive, ghost genuine: Authenticate<Data>, ghost anc: Ancestry) returns (fleet: Fleet)
    requires forall turn <- turns :: Proper(turn, truth, genuine)
    ensures fresh(fleet) && fleet.Valid() && fleet.ledger.truth == truth
    ensures Authored(fleet.store.world, genuine)
    ensures var log := Committed(fleet.store.world);
      && (log != [] ==> exists s :: Replays(log, truth, s))
      && ExecutedOnce(log, truth, fleet.handed)
    ensures IsAncestry(anc) && (forall turn <- turns :: Sincere(turn, anc)) ==>
      forall s | Replays(Committed(fleet.store.world), truth, s) :: Leads(anc, s.processed, s.pending)
  {
    hide Intact, AllBacked, Honest, Proper, Sincere, IsAncestry, ExecutedOnce, Replays;
    fleet := new Fleet(truth, genuine);
    ghost var sincere := forall turn <- turns :: Sincere(turn, anc);
    NothingIsHonest(anc);
    for i := 0 to |turns|
      invariant fresh(fleet) && fleet.Valid() && fleet.ledger.truth == truth && fleet.store.genuine == genuine
      invariant fresh(fleet.Footprint())
      invariant sincere ==> Honest(Loaded(fleet.store.world), anc)
    {
      assert turns[i] in turns;
      fleet.Take(turns[i], anc);
    }
    fleet.store.CommittedIsGenuine();
    fleet.Promises(anc);
  }
}
