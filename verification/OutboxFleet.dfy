/** Whole runs of the outbox: any number of processes on one journal, in any interleaving of calls, crashes and landings. */
module OutboxFleet {
  import opened Wrappers
  import opened Chain
  import opened Protocol
  import opened Journals
  import opened Outbox
  import opened OutboxRuns
  import opened OutboxClient

  datatype Operation =
    | Report(payload: Payload, calls: seq<ProxyCall>, raises: bool)
    | Succeed(recovery: Recovery, floor: map<string, int>)
    | Audit(delivery: DeliveryId, claim: Outbox.Operation, resolution: Resolution)
    | DrainOutbox(floor: map<string, int>, later: Api, queued: DeliveryId -> seq<ProxyCall>, raises: bool)

  /** What happens next: a process starts, runs an operation or clears a stranded intent, or something lands. */
  datatype Turn =
    | Start(persistVerified: bool)
    | Run(process: nat, operation: Operation, api: Api)
    | Drain(process: nat, expected: Digest<Data>, net: Network<Data>)
    | Environment(action: Action<Data>)

  ghost predicate ProperCalls(calls: seq<ProxyCall>, genuine: Authenticate<Data>) {
    forall c <- calls, n :: Trusty(c.at(n), genuine)
  }

  /** The surroundings of every turn meet the client's assumptions. */
  ghost predicate Proper(turn: Turn, genuine: Authenticate<Data>) {
    && (turn.Drain? ==> Faithful(turn.net, genuine))
    && (turn.Run? ==> Usable(turn.api, genuine))
    && (turn.Run? && turn.operation.Report? ==> ProperCalls(turn.operation.calls, genuine))
    && (turn.Run? && turn.operation.DrainOutbox? ==> Usable(turn.operation.later, genuine) && forall id :: ProperCalls(turn.operation.queued(id), genuine))
  }

  class Fleet {
    const store: Store<Data>
    const wire: Wire
    var processes: seq<Client>

    ghost predicate Valid()
      reads this, store, wire, processes, set p | p in processes :: p.journal
    {
      && Running()
      && Intact(store.world, wire.epoch, wire.sent)
    }

    ghost function Footprint(): set<object>
      reads this
    {
      {this, store, wire} + (set p | p in processes) + (set p | p in processes :: p.journal)
    }

    /** Every process has its own journal client on the one store. */
    ghost predicate Running()
      reads this, store, wire, processes, set p | p in processes :: p.journal
    {
      && store.Valid()
      && (forall p <- processes :: p.journal.store == store && p.wire == wire && p.epoch == wire.epoch && p.journal.Valid())
      && (forall i, j | 0 <= i < j < |processes| :: processes[i].journal != processes[j].journal)
    }

    constructor (epoch: string, ghost genuine: Authenticate<Data>)
      ensures store.genuine == genuine
      ensures Valid() && fresh(Footprint()) && wire.epoch == epoch && wire.sent == Sent([], [], [])
      ensures processes == [] && store.world == Initial()
    {
      store := new Store(genuine);
      wire := new Wire(epoch);
      processes := [];
      new;
      IntactInitially(epoch);
    }

    method Launch(epoch: string, persistVerified: bool)
      requires Valid() && epoch == wire.epoch
      modifies this`processes
      ensures Valid() && fresh(Footprint() - old(Footprint()))
    {
      hide Intact;
      var journal := new Journal(store);
      var process := new Client(journal, wire, epoch, persistVerified);
      processes := processes + [process];
    }

    /** What one process does to the journal leaves the caches of the others good. */
    twostate lemma StillRunning()
      requires old(Running()) && processes == old(processes) && store.Valid() && old(store.trace) <= store.trace
      requires forall p <- processes :: p.journal.Valid() || p.journal.verified == old(p.journal.verified)
      ensures Running()
    {
      hide Cached;
      store.NeverForks(old(store.trace));
      forall p | p in processes ensures p.journal.Valid() {
        if !p.journal.Valid() && p.journal.verified.Some? {
          CacheOutlives(p.journal.verified.value, old(store.world.comments), store.world.comments);
        }
      }
    }

    /** One operation of one process. Only reports and drains POST, one report each; recoveries keep to their own bounds. */
    method Run(process: nat, operation: Operation, api: Api)
      requires Valid() && process < |processes| && Proper(Turn.Run(process, operation, api), store.genuine)
      modifies Footprint()
      ensures Valid() && processes == old(processes) && old(store.trace) <= store.trace
      ensures Extends(old(wire.sent), wire.sent)
      ensures operation.Audit? ==> wire.sent == old(wire.sent)
      ensures operation.Succeed? ==> Courteous(old(wire.sent), wire.sent, operation.recovery.identity)
      ensures operation.Report? ==>
        wire.sent.posts == old(wire.sent.posts) || AddsOne(old(wire.sent.posts), wire.sent.posts, IdOf(operation.payload))
      ensures operation.DrainOutbox? ==>
        wire.sent.posts == old(wire.sent.posts) || exists id :: AddsOne(old(wire.sent.posts), wire.sent.posts, id)
    {
      hide Intact, Cached, Usable, Faithful, GivenUp, Closable, Reservable, Swift, Calm, CommentLands, Bucket, Newest;
      hide Prospers, Audited, Uncertain, Replay, Readable, Flawless, Clears, AllResolved;
      var p := processes[process];
      match operation
      case Report(payload, calls, raises) =>
        var answer := p.Deliver(payload, calls, raises, api);
        StillRunning();
      case Succeed(recovery, floor) =>
        var answer := p.RecoverSuccess(recovery, floor, api);
        StillRunning();
      case Audit(delivery, claim, resolution) =>
        var answer := p.ReconcileClaim(delivery, claim, resolution, api);
        StillRunning();
      case DrainOutbox(floor, later, queued, raises) =>
        var answer := p.DrainOnce(floor, api, later, queued, raises);
        StillRunning();
    }

    /** An operator clears a stranded intent. */
    method Drain(process: nat, expected: Digest<Data>, net: Network<Data>)
      requires Valid() && process < |processes| && Faithful(net, store.genuine)
      modifies set p | p in processes :: p.journal, store
      ensures Valid() && processes == old(processes) && old(store.trace) <= store.trace
    {
      hide Intact, Cached;
      ghost var before := store.world;
      var cleared := processes[process].journal.ReconcilePending(expected, net);
      StillRunning();
      IntactWithout(before, store.world, wire.epoch, wire.sent);
    }

    /** One turn; a turn that cannot be taken changes nothing. What was sent stays on record. */
    method Take(turn: Turn, epoch: string)
      requires Valid() && Proper(turn, store.genuine) && epoch == wire.epoch
      modifies Footprint()
      ensures Valid() && old(store.trace) <= store.trace && Extends(old(wire.sent), wire.sent)
      ensures fresh(Footprint() - old(Footprint()))
    {
      hide Intact, Cached, Usable, Faithful, ProperCalls;
      ghost var before := store.world;
      match turn
      case Start(persistVerified) =>
        Launch(epoch, persistVerified);
      case Run(process, operation, api) =>
        if process < |processes| {
          Run(process, operation, api);
        }
      case Drain(process, expected, net) =>
        if process < |processes| {
          Drain(process, expected, net);
        }
      case Environment(action) =>
        store.Disturb(action);
        StillRunning();
        IntactWithout(before, store.world, wire.epoch, wire.sent);
    }
  }

  /**
   * From an empty journal, through any turns of any processes: every report, comment and close that was ever sent is
   * fenced by the committed history, and every committed record was written by a genuine writer.
   */
  method Serve(turns: seq<Turn>, epoch: string, ghost genuine: Authenticate<Data>) returns (fleet: Fleet)
    requires forall turn <- turns :: Proper(turn, genuine)
    ensures fresh(fleet) && fleet.Valid() && fleet.wire.epoch == epoch
    ensures Authored(fleet.store.world, genuine)
    ensures Backed(Committed(fleet.store.world), epoch, fleet.wire.sent)
  {
    hide Intact, Proper;
    fleet := new Fleet(epoch, genuine);
    for i := 0 to |turns|
      invariant fleet.Valid() && fleet.store.genuine == genuine && fleet.wire.epoch == epoch && fresh(fleet.Footprint())
    {
      assert turns[i] in turns;
      fleet.Take(turns[i], epoch);
    }
    fleet.store.Sound();
    fleet.store.CommittedIsGenuine();
    EveryWriteIsFenced(fleet.store.world, epoch, fleet.wire.sent);
  }

  /** One drain: the floor, the observations before and after the recoveries, and what the adapter would do. */
  datatype Round = Round(floor: map<string, int>, api: Api, later: Api, queued: DeliveryId -> seq<ProxyCall>, raises: bool)

  ghost predicate ProperRound(round: Round, genuine: Authenticate<Data>) {
    && Usable(round.api, genuine) && Usable(round.later, genuine)
    && forall id: DeliveryId, c, n | c in round.queued(id) :: Trusty(c.at(n), genuine)
  }

  /**
   * Drains again and again, until one fails or does something. On a queue that is stuck none ever does: however often
   * it is drained, no report is posted and everything queued stays queued.
   */
  method DrainRepeatedly(client: Client, rounds: seq<Round>) returns (answers: seq<Result<Answer>>)
    requires client.Valid() && forall round <- rounds :: ProperRound(round, client.journal.store.genuine)
    modifies client, client.journal`verified, client.journal.store, client.wire
    ensures client.Valid()
    ensures
      var found := Replay(NewState(client.epoch), old(Loaded(client.journal.store.world)));
      && found.Success?
      && (Stuck(found.value) ==>
            && client.wire.sent.posts == old(client.wire.sent.posts)
            && (forall answer <- answers :: answer.Success? ==> answer.value == StaleReport || answer.value == NeedsReconciliation)
            && (answers != [] && (forall answer <- answers :: answer == Success(StaleReport)) ==>
                  |answers| == |rounds| && Settles(found.value, client.state)))
  {
    hide Replay, Settles, Stuck, Drained, Aside, Intact, Usable, Readable, AddsOne;
    client.FoundReplays();
    ghost var found := Replay(NewState(client.epoch), Loaded(client.journal.store.world)).value;
    ghost var now := found;
    answers := [];
    SettlesItself(found);
    for i := 0 to |rounds|
      invariant client.Valid() && |answers| == i && Replay(NewState(client.epoch), Loaded(client.journal.store.world)) == Success(now)
      invariant Stuck(found) ==> Stuck(now) && Settles(found, now) && client.wire.sent.posts == old(client.wire.sent.posts)
      invariant Stuck(found) && i > 0 ==> client.state == now
      invariant forall answer <- answers :: answer == Success(StaleReport)
    {
      assert ProperRound(rounds[i], client.journal.store.genuine) by {
        assert rounds[i] in rounds;
      }
      var answer := client.DrainOnce(rounds[i].floor, rounds[i].api, rounds[i].later, rounds[i].queued, rounds[i].raises);
      answers := answers + [answer];
      if answer != Success(StaleReport) {
        assert answers[i] in answers;
        if answer.Success? && Stuck(found) && answer.value != NeedsReconciliation {
          StuckStands(now, answer.value);
        }
        return;
      }
      client.CurrentReplays();
      if Stuck(found) {
        SettlesOn(found, now, client.state);
      }
      now := client.state;
    }
  }

  lemma SettlesItself(s: State)
    ensures Settles(s, s)
  {
  }

  lemma StuckStands(s: State, answer: Answer)
    requires Stuck(s) && Drained(s, answer)
    ensures answer == StaleReport
  {
  }

  lemma SettlesOn(s: State, t: State, u: State)
    requires Settles(s, t) && Settles(t, u) && Stuck(t)
    ensures Settles(s, u) && Stuck(u)
  {
    hide Stuck;
    QueueStands(t, u, u);
  }
}
