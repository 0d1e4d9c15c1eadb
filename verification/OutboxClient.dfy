/** The outbox over its journal: fenced POSTs, recovery of uncertain writes, and closing buckets after a success. */
module OutboxClient {
  import opened Wrappers
  import opened Chain
  import opened Protocol
  import opened Journals
  import opened Outbox
  import opened OutboxRuns
  import opened Sequences

  // ---------------------------------------------------------------- what has been sent

  /** A report POST; `at` is the length of the log when its claim had just been committed. */
  datatype Posting = Posting(delivery: DeliveryId, at: nat)

  datatype Commenting = Commenting(id: Identity, at: nat)

  /** A close PATCH, and the causal floor it was issued under. */
  datatype Closing = Closing(id: Identity, floor: map<string, int>, at: nat)

  /** Every business write ever issued, by any process. */
  datatype Sent = Sent(posts: seq<Posting>, comments: seq<Commenting>, closes: seq<Closing>)

  function PostCount(posts: seq<Posting>, id: DeliveryId): nat {
    if posts == [] then 0
    else PostCount(posts[..|posts| - 1], id) + (if posts[|posts| - 1].delivery == id then 1 else 0)
  }

  /** No other report write is unresolved. */
  predicate Quiet(s: State, id: DeliveryId) {
    forall other <- s.deliveries | other != id :: s.deliveries[other].status == Queued || s.deliveries[other].status == Delivered
  }

  /** The recovery is newer than the latest failure on record and than the supplied floor. */
  predicate Newest(s: State, floor: map<string, int>, i: Identity) {
    && (i.key in s.latest ==> s.latest[i.key].order < i.order)
    && (i.key in floor ==> floor[i.key] < i.order)
  }

  /** The close is claimed after an exact comment receipt, for a success newer than every known failure. */
  predicate Earned(s: State, c: Closing) {
    && c.id in s.recoveries
    && s.recoveries[c.id].status == CloseClaimed
    && s.recoveries[c.id].commentReceipt.Some?
    && Newest(s, c.floor, c.id)
  }

  /** The first `at` events of the log, the last of which is this one. */
  predicate EndsIn(log: Log, at: nat, data: Data -> bool) {
    0 < at <= |log| && data(log[at - 1].data)
  }

  /** The POST was issued in the state its own committed claim led to, beside no other unresolved report. */
  ghost predicate Issued(log: Log, epoch: string, p: Posting) {
    && EndsIn(log, p.at, (data: Data) => data.ClaimReport? && data.delivery == p.delivery)
    && var r := Replay(NewState(epoch), log[..p.at]);
    && r.Success? && Quiet(r.value, p.delivery)
  }

  ghost predicate Commented(log: Log, m: Commenting) {
    EndsIn(log, m.at, (data: Data) => data.ClaimComment? && data.id == m.id)
  }

  /** The PATCH was issued in the state its own committed close claim led to, and was earned there. */
  ghost predicate Patched(log: Log, epoch: string, c: Closing) {
    && EndsIn(log, c.at, (data: Data) => data.ClaimClose? && data.id == c.id)
    && var r := Replay(NewState(epoch), log[..c.at]);
    && r.Success? && Earned(r.value, c)
  }

  /** Writes come one claim after another; no recovery comments or closes twice. */
  ghost predicate Orderly(sent: Sent) {
    && (forall i, j | 0 <= i < j < |sent.posts| :: sent.posts[i].at < sent.posts[j].at)
    && (forall i, j | 0 <= i < j < |sent.comments| :: sent.comments[i].id != sent.comments[j].id)
    && (forall i, j | 0 <= i < j < |sent.closes| :: sent.closes[i].id != sent.closes[j].id)
  }

  predicate CommentSpent(s: State, id: Identity) {
    id in s.recoveries && s.recoveries[id].status != Waiting
  }

  predicate ClosingSpent(s: State, id: Identity) {
    id in s.recoveries && CloseSpent(s.recoveries[id].status)
  }

  /** The log accounts for everything that was sent, each write where its claim was committed. */
  ghost predicate Covered(log: Log, epoch: string, sent: Sent) {
    && Replay(NewState(epoch), log).Success?
    && var s := Replay(NewState(epoch), log).value;
    && (forall id :: PostCount(sent.posts, id) <= Claims(log, id))
    && (forall p <- sent.posts :: Issued(log, epoch, p))
    && (forall m <- sent.comments :: Commented(log, m) && CommentSpent(s, m.id))
    && (forall c <- sent.closes :: Patched(log, epoch, c) && ClosingSpent(s, c.id))
  }

  lemma IssuedStands(a: Log, b: Log, epoch: string)
    requires a <= b
    ensures forall p | Issued(a, epoch, p) :: Issued(b, epoch, p)
    ensures forall m | Commented(a, m) :: Commented(b, m)
    ensures forall c | Patched(a, epoch, c) :: Patched(b, epoch, c)
  {
    hide Replay, Quiet, Earned;
    assert forall n: nat | n <= |a| :: a[..n] == b[..n];
  }

  lemma {:induction false} CoveredGrows(a: Log, b: Log, epoch: string, sent: Sent)
    requires Covered(a, epoch, sent) && a <= b && UniqueIds(b) && Replay(NewState(epoch), b).Success?
    ensures Covered(b, epoch, sent)
  {
    hide Replay, Claims, ReportsMonotone, Issued, Commented, Patched;
    NothingIsUndone(a, b, epoch);
    IssuedStands(a, b, epoch);
    forall id ensures Claims(a, id) <= Claims(b, id) {
      ClaimsGrow(a, b, id);
    }
  }

  // ---------------------------------------------------------------- fences

  function FenceId(epoch: string, generation: nat): string {
    "outbox:" + epoch + ":" + Decimal(generation)
  }

  function EventOf(s: State, data: Data): Event<Data> {
    Event(FenceId(s.epoch, s.generation), s.epoch, s.generation, data)
  }

  /** Only this client writes the journal: every event is named by its own position. */
  ghost predicate Named(log: Log, epoch: string) {
    forall i | 0 <= i < |log| :: log[i].id == FenceId(epoch, i)
  }

  ghost predicate Intact(w: World<Data>, epoch: string, sent: Sent) {
    && Replay(NewState(epoch), Loaded(w)).Success?
    && UniqueIds(Loaded(w))
    && Named(Loaded(w), epoch)
    && Covered(Committed(w), epoch, sent)
    && Orderly(sent)
  }

  lemma {:induction false} IntactStays(before: World<Data>, now: World<Data>, log: Log, epoch: string, sent: Sent)
    requires Intact(before, epoch, sent) && Within(before, now, log)
    requires UniqueIds(log) && Named(log, epoch) && Replay(NewState(epoch), log).Success?
    ensures Intact(now, epoch, sent)
  {
    hide Replay, Covered, Orderly;
    NothingIsUndone(Loaded(now), log, epoch);
    NothingIsUndone(Committed(now), log, epoch);
    CoveredGrows(Committed(before), Committed(now), epoch, sent);
  }

  /** Environment steps and loads keep the outbox intact: they only commit or drop what was intended. */
  lemma IntactWithout(before: World<Data>, now: World<Data>, epoch: string, sent: Sent)
    requires Intact(before, epoch, sent) && Within(before, now, Loaded(before))
    ensures Intact(now, epoch, sent)
  {
    hide Replay, Covered, Orderly, Within;
    IntactStays(before, now, Loaded(before), epoch, sent);
  }

  /** The fence of a journal's own log is a new name, so whatever the reducer would do with the data, it does with its event. */
  lemma {:induction false} FenceWorks(known: Log, epoch: string, s: State, data: Data)
    requires UniqueIds(known) && Named(known, epoch) && Replay(NewState(epoch), known) == Success(s)
    ensures EventOf(s, data).id !in s.events
    ensures var t := Transition(s, data);
      Reduce(s, EventOf(s, data)) == if t.Failure? then Failure else Success(Stamp(t.value, EventOf(s, data)))
  {
    hide Replay, Transition, Sound, FenceId;
    ReplayIsSound(known, epoch);
    SoundIsFenced(known, epoch, s);
    var id := FenceId(s.epoch, s.generation);
    if id in s.events {
      var i :| 0 <= i < |known| && known[i] == s.events[id];
      FenceIdIsUnique(epoch, i, |known|);
    }
  }

  lemma FenceIdIsUnique(epoch: string, m: nat, n: nat)
    requires FenceId(epoch, m) == FenceId(epoch, n)
    ensures m == n
  {
    var prefix := "outbox:" + epoch + ":";
    assert FenceId(epoch, m)[|prefix|..] == Decimal(m) && FenceId(epoch, n)[|prefix|..] == Decimal(n);
    DecimalIsUnique(m, n);
  }

  /** The three ways a journal can relate to a client that knows `known`, after one or more attempts to append `e`. */
  lemma {:induction false} FenceCases(known: Log, log: Log, epoch: string, s: State, e: Event<Data>)
    requires known <= log && UniqueIds(log) && Named(log, epoch)
    requires Replay(NewState(epoch), known) == Success(s) && Replay(NewState(epoch), log).Success?
    requires e.id == FenceId(s.epoch, s.generation) && e.epoch == s.epoch && e.generation == s.generation && Reduce(s, e).Success?
    ensures e.id !in s.events
    ensures NewId(log, e.id) <==> log == known
    ensures log == known ==>
      UniqueIds(log + [e]) && Named(log + [e], epoch) && Replay(NewState(epoch), log + [e]) == Reduce(s, e)
    ensures e in log && Replay(NewState(epoch), log) == Reduce(s, e) ==> log == known + [e]
  {
    hide Replay, Transition, Reduce, Sound, FenceId, UniqueIds;
    UniquePart(known, log);
    FenceIsNew(known, epoch, s, e);
    if log == known {
      ReplaySnoc(NewState(epoch), known, e);
      UniqueMore(known, e);
    } else {
      assert log[|known|].id == e.id;
    }
    if e in log && Replay(NewState(epoch), log) == Reduce(s, e) {
      FenceFits(known, log, epoch, s, e);
    }
  }

  lemma {:induction false} FenceIsNew(known: Log, epoch: string, s: State, e: Event<Data>)
    requires UniqueIds(known) && Replay(NewState(epoch), known) == Success(s)
    requires e.epoch == s.epoch && e.generation == s.generation && Reduce(s, e).Success?
    ensures e.id !in s.events && NewId(known, e.id)
    ensures s.epoch == epoch && s.generation == |known|
  {
    hide Replay, Transition, Sound, UniqueIds;
    ReplayIsSound(known, epoch);
    SoundIsFenced(known, epoch, s);
    forall id | id in s.events ensures s.events[id] != e {
      assert s.events[id] in known;
    }
    UnappliedId(known, epoch, s, e.id);
  }

  lemma UniqueMore(log: Log, e: Event<Data>)
    requires UniqueIds(log) && NewId(log, e.id)
    ensures UniqueIds(log + [e])
  {
  }

  lemma {:induction false} FenceFits(known: Log, log: Log, epoch: string, s: State, e: Event<Data>)
    requires known <= log && UniqueIds(log) && e in log
    requires e.generation == s.generation == |known| && e.id !in s.events
    requires Reduce(s, e).Success? && Replay(NewState(epoch), log) == Reduce(s, e)
    ensures log == known + [e]
  {
    hide Replay, Transition, Sound, UniqueIds;
    ReplayIsSound(log, epoch);
    SoundIsFenced(log, epoch, Reduce(s, e).value);
    TransitionKeepsStamp(s, e.data);
    var k :| 0 <= k < |log| && log[k] == e;
    assert log == known + [e];
  }

  lemma LoadedIsUnique(w: World<Data>)
    requires Anchored(w)
    ensures UniqueIds(Loaded(w)) && Committed(w) <= Loaded(w)
  {
    CommittedIsLoaded(w);
  }

  /**
   * A report is POSTed at most once more than its claim was cleared, each time directly after its own committed
   * claim, one claim for each POST, and never beside another unresolved report. A recovery comments and closes at
   * most once, each after its own claim, and closes only after its comment's receipt and only for a success newer
   * than every failure known where the claim stands.
   */
  ghost predicate Backed(log: Log, epoch: string, sent: Sent) {
    && (forall id :: PostCount(sent.posts, id) <= Claims(log, id) <= 1 + Clears(log, id))
    && (forall p <- sent.posts :: Issued(log, epoch, p))
    && (forall m <- sent.comments :: Commented(log, m))
    && (forall c <- sent.closes :: Patched(log, epoch, c))
    && Orderly(sent)
  }

  /** Whatever crashed, got lost or was repeated before: an intact journal fences everything that was sent. */
  lemma EveryWriteIsFenced(w: World<Data>, epoch: string, sent: Sent)
    requires Intact(w, epoch, sent) && Anchored(w)
    ensures Backed(Committed(w), epoch, sent)
  {
    hide Replay, Claims, Clears, Issued, Commented, Patched;
    LoadedIsUnique(w);
    UniquePart(Committed(w), Loaded(w));
    forall id ensures Claims(Committed(w), id) <= 1 + Clears(Committed(w), id) {
      ClaimsAreBounded(Committed(w), epoch, id);
    }
  }

  /** An empty journal with nothing sent is where every outbox starts. */
  lemma IntactInitially(epoch: string)
    ensures Intact(Initial(), epoch, Sent([], [], []))
  {
  }

  // ---------------------------------------------------------------- surroundings

  /** What became of a POST; `written` is the trusted positive identity in the answer, if there is one. */
  datatype PostAnswer = Died | Rejected(httpStatus: int) | Answered(written: Option<int>)

  /** The outcome of one operation of the outbox. */
  datatype Answer =
    | Ready | Idle | NeedsReconciliation | StaleReport | Arrived(receipt: Receipt) | ClaimCleared
    | BucketClosed(issue: int) | Superseded | Inapplicable

  /** One call of the adapter on the posting proxy. */
  datatype ProxyCall = ProxyCall(operation: Operation, answer: PostAnswer, at: nat -> Surroundings<Data>)

  datatype Resolution = Absent | Bind(receipt: Receipt)

  /** One reload: the lock, the network of the read, and that of the anchor upgrade. */
  datatype Reload = Reload(locked: bool, net: Network<Data>, upgrade: Network<Data>)

  /**
   * What the repository's API shows. `observed` is read at recovery (0) and after the adapter returned (1);
   * `recoveryComment` before a comment claim (0) and after it (1); `managed` says whether the untouched managed
   * issue is open, before a close claim (0) and after it (1). `postComment` and `patchClose` are the two writes;
   * they answer with an exact trusted receipt or not.
   */
  datatype Api = Api(
    load: nat -> Reload,
    at: nat -> Surroundings<Data>,
    observed: (nat, DeliveryId) -> Result<Option<Receipt>>,
    candidate: DeliveryId -> Result<bool>,
    recoveryComment: (nat, Identity) -> Result<Option<int>>,
    postComment: Identity -> Result<Option<int>>,
    managed: (nat, Identity) -> Result<Option<bool>>,
    patchClose: Identity -> Result<bool>)

  /** The reload goes through while these are the comments. */
  ghost predicate Swift(from: Reload, comments: seq<Comment<Data>>, persist: bool) {
    && from.locked && Unhindered(from.net) && AllAuthentic(comments, from.net.auth)
    && (persist ==> Unhindered(from.upgrade))
  }

  /** The proxy call is for the only write its report allows, and is answered by the identity of what was written. */
  predicate Landed(s: State, id: DeliveryId, operation: Operation, answer: PostAnswer) {
    && id in s.deliveries && s.deliveries[id].status == Queued && Intends(s, s.deliveries[id].payload, operation)
    && answer.Answered? && answer.written.Some? && answer.written.value > 0
  }

  function ReceiptFor(operation: Operation, written: int): Receipt {
    if operation.CreateIssue? then Receipt(written, None) else Receipt(operation.number, Some(written))
  }

  /** The write is acknowledged by this receipt. */
  predicate Written(s: State, id: DeliveryId, r: Receipt) {
    && id in s.deliveries && s.deliveries[id].status == Acknowledged
    && s.deliveries[id].ack == Some(r) && Matches(s, s.deliveries[id], r)
  }

  /** The adapter's first call lands; what it calls afterwards does not matter. */
  ghost predicate Lands(s: State, id: DeliveryId, calls: seq<ProxyCall>, comments: seq<Comment<Data>>) {
    && calls != [] && Landed(s, id, calls[0].operation, calls[0].answer) && s.deliveries[id].ack.None?
    && Flawless(calls[0].at(0), comments) && Flawless(calls[0].at(1), comments)
  }

  /** The receipt of the first call, if it is answered. */
  function ReceiptOf(calls: seq<ProxyCall>): Receipt {
    if calls != [] && calls[0].answer.Answered? && calls[0].answer.written.Some?
    then ReceiptFor(calls[0].operation, calls[0].answer.written.value)
    else Receipt(0, None)
  }

  /** The report is older than the newest one on record for its bucket. */
  predicate Outrun(s: State, p: Payload) {
    p.order.Some? && p.key in s.latest && p.order.value < s.latest[p.key].order
  }

  /** The report is new or still queued, in order, and no other report is unresolved. */
  predicate Deliverable(s: State, p: Payload) {
    && AllResolved(s) && OrderAdmits(s, p)
    && (IdOf(p) in s.deliveries ==> s.deliveries[IdOf(p)].payload == p && s.deliveries[IdOf(p)].status == Queued)
  }

  /** The adapter's first call is for the only write the report allows, goes through, and is answered. */
  ghost predicate Carried(s: State, p: Payload, calls: seq<ProxyCall>, comments: seq<Comment<Data>>) {
    && calls != [] && Intends(s, p, calls[0].operation)
    && calls[0].answer.Answered? && calls[0].answer.written.Some? && calls[0].answer.written.value > 0
    && Flawless(calls[0].at(0), comments) && Flawless(calls[0].at(1), comments)
  }

  /** Everything a delivery needs: a deliverable report, an adapter that carries it, and surroundings that work. */
  ghost predicate Prospers(s: State, p: Payload, calls: seq<ProxyCall>, raises: bool, api: Api, comments: seq<Comment<Data>>, persist: bool) {
    && Deliverable(s, p) && Carried(s, p, calls, comments) && !raises
    && Swift(api.load(0), comments, persist) && Swift(api.load(1), comments, persist)
    && Flawless(api.at(0), comments) && Flawless(api.at(1), comments)
    && api.observed(1, IdOf(p)) == Success(Some(ReceiptOf(calls)))
  }

  ghost predicate Usable(api: Api, genuine: Authenticate<Data>) {
    && (forall n :: Faithful(api.load(n).net, genuine))
    && (forall n :: Trusty(api.at(n), genuine))
  }

  predicate Resolved(status: Status) {
    status == Queued || status == Delivered
  }

  predicate AllResolved(s: State) {
    forall id <- s.deliveries :: Resolved(s.deliveries[id].status)
  }

  /** Unresolved writes may have been settled; everything else about reports stands. */
  predicate Settles(s: State, t: State) {
    && t.queued == s.queued && t.latest == s.latest && t.deliveries.Keys == s.deliveries.Keys
    && forall id <- s.deliveries ::
         || t.deliveries[id] == s.deliveries[id]
         || (!Resolved(s.deliveries[id].status) && t.deliveries[id].status == Delivered)
  }

  /** Every unresolved write shows an exact receipt of its own, and writes of one bucket show the same issue. */
  ghost predicate Visible(s: State, api: Api) {
    && (forall id <- s.deliveries | !Resolved(s.deliveries[id].status) ::
          && s.deliveries[id].status != Refused
          && api.observed(0, id).Success? && api.observed(0, id).value.Some?
          && Matches(s, s.deliveries[id], api.observed(0, id).value.value))
    && (forall a, b | a in s.deliveries && b in s.deliveries && !Resolved(s.deliveries[a].status) && !Resolved(s.deliveries[b].status)
                      && s.deliveries[a].payload.key == s.deliveries[b].payload.key ::
          api.observed(0, a).value.value.issue == api.observed(0, b).value.value.issue)
  }

  /** While the scan goes on, the known bucket of each of these writes is the issue its receipt shows. */
  ghost predicate StillVisible(s: State, t: State, api: Api)
    requires Visible(s, api)
  {
    forall id <- s.deliveries | !Resolved(s.deliveries[id].status) ::
      s.deliveries[id].payload.key in t.buckets ==> t.buckets[s.deliveries[id].payload.key] == api.observed(0, id).value.value.issue
  }

  /** The first `n` writes of the scan are resolved, and the rest are as they were. */
  ghost predicate Scanned(s: State, t: State, n: nat)
    requires KeysKept(s) && n <= |s.queued|
  {
    && Settles(s, t)
    && (forall j | 0 <= j < n :: Resolved(t.deliveries[s.queued[j]].status))
    && (forall j | n <= j < |s.queued| :: t.deliveries[s.queued[j]] == s.deliveries[s.queued[j]])
  }

  /** Every append around this API goes through while these are the comments. */
  ghost predicate Calm(api: Api, comments: seq<Comment<Data>>) {
    forall n :: Flawless(api.at(n), comments)
  }

  /** The recovery comment is posted and answered, or was posted before, and is then visible as exactly that. */
  predicate Commentable(row: Row, id: Identity, api: Api) {
    && api.recoveryComment(1, id).Success? && api.recoveryComment(1, id).value.Some? && api.recoveryComment(1, id).value.value > 0
    && match row.status
       case Waiting =>
         api.recoveryComment(0, id) == Success(None) && api.postComment(id) == api.recoveryComment(1, id)
       case CommentClaimed => Reappears(row, id, api)
       case CommentAcknowledged => Reappears(row, id, api)
       case _ => false
  }

  /** A delivered report of the bucket is in this issue. */
  predicate Bucket(s: State, key: string, issue: int) {
    exists id <- s.deliveries :: OwnsBucket(s.deliveries[id], key) && s.deliveries[id].receipt.Some? && s.deliveries[id].receipt.value.issue == issue
  }

  /** Nothing newer is on record for the bucket, which has a delivered report, and whose issue is open and untouched. */
  predicate Reservable(s: State, recovery: Recovery, api: Api) {
    && !Overtaken(s, recovery.identity) && WellFormed(recovery.identity)
    && (exists id <- s.deliveries :: OwnsBucket(s.deliveries[id], recovery.identity.key))
    && (forall id <- s.deliveries | OwnsBucket(s.deliveries[id], recovery.identity.key) :: s.deliveries[id].payload.issueBody != "")
    && api.managed(2, recovery.identity) == Success(Some(true))
  }

  /** The comment is not there yet, is posted with a positive identity, and is then visible as that. */
  predicate CommentLands(id: Identity, api: Api) {
    && api.recoveryComment(0, id) == Success(None) && api.postComment(id) == api.recoveryComment(1, id)
    && api.postComment(id).Success? && api.postComment(id).value.Some? && api.postComment(id).value.value > 0
  }

  /** The only grounds for giving a recovery up: a failure that is not older, on record or in the floor. */
  predicate GivenUp(s: State, floor: map<string, int>, id: Identity) {
    || (id in s.recoveries && s.recoveries[id].status == Stale)
    || (id.key in s.latest && s.latest[id.key].order >= id.order)
    || (id.key in floor && floor[id.key] >= id.order)
  }

  /** The close of the row's own issue is claimed, and possibly acknowledged. */
  predicate UnderClose(row: Row) {
    && (row.status == CloseClaimed || row.status == CloseAcknowledged) && row.closeClaim.Some?
    && (row.closeReceipt.Some? ==> row.closeReceipt.value == row.issue)
  }

  predicate Reappears(row: Row, id: Identity, api: Api) {
    && api.recoveryComment(0, id).Success? && api.recoveryComment(0, id).value.Some?
    && (row.commentReceipt.Some? ==> Success(row.commentReceipt.value.comment) == api.recoveryComment(1, id))
  }

  /** The untouched managed issue takes the PATCH, and is then visible as closed. */
  predicate Closable(id: Identity, api: Api) {
    && api.managed(0, id).Success? && api.managed(0, id).value.Some?
    && api.patchClose(id) == Success(true) && api.managed(1, id) == Success(Some(false))
  }

  /** The report's write was claimed as exactly this, and nothing has settled it. */
  predicate Uncertain(s: State, id: DeliveryId, claim: Operation) {
    id in s.deliveries && s.deliveries[id].claim == Some(claim) && s.deliveries[id].status in {Claimed, Acknowledged}
  }

  /** The live observation proves what the operator found. */
  predicate Audited(s: State, id: DeliveryId, claim: Operation, resolution: Resolution, api: Api)
    requires Uncertain(s, id, claim)
  {
    match resolution
    case Absent =>
      && s.deliveries[id].status == Claimed
      && api.observed(0, id) == Success(None) && (claim.CreateIssue? ==> api.candidate(id) == Success(false))
    case Bind(receipt) => api.observed(0, id) == Success(Some(receipt)) && Matches(s, s.deliveries[id], receipt)
  }

  predicate QueuedAt(s: State, i: nat)
    requires i < |s.queued|
  {
    s.queued[i] in s.deliveries && s.deliveries[s.queued[i]].status == Queued
  }

  /** The report at this place of the queue is the first that is still queued. */
  predicate FirstQueued(s: State, i: nat) {
    i < |s.queued| && QueuedAt(s, i) && forall j | 0 <= j < i :: !QueuedAt(s, j)
  }

  predicate NothingQueued(s: State) {
    forall i | 0 <= i < |s.queued| :: !QueuedAt(s, i)
  }

  /** What a drain comes to: it stands still exactly on a first report that is outrun, and delivers any other. */
  ghost predicate Drained(s: State, answer: Answer) {
    && (NothingQueued(s) ==> answer == Idle)
    && (forall i: nat | FirstQueued(s, i) ::
          if Outrun(s, s.deliveries[s.queued[i]].payload) then answer == StaleReport else answer.Arrived?)
  }

  /** No recovery is under way. */
  predicate AllTerminal(s: State) {
    forall id <- s.recoveries :: Terminal(s.recoveries[id].status)
  }

  /** The first queued report is outrun. */
  ghost predicate Stuck(s: State) {
    exists i: nat :: FirstQueued(s, i) && Outrun(s, s.deliveries[s.queued[i]].payload)
  }

  /** Recoveries leave everything about reports alone. */
  predicate Aside(s: State, t: State) {
    t.deliveries == s.deliveries && t.latest == s.latest && t.queued == s.queued
  }

  ghost predicate AddsOne(before: seq<Posting>, now: seq<Posting>, id: DeliveryId) {
    |now| == |before| + 1 && before < now && now[|before|].delivery == id
  }

  /** At most one recovery comment and one close, and only for this recovery; no report POST. */
  ghost predicate Courteous(before: Sent, now: Sent, id: Identity) {
    && now.posts == before.posts
    && (now.comments == before.comments
        || (|now.comments| == |before.comments| + 1 && before.comments < now.comments && now.comments[|before.comments|].id == id))
    && (now.closes == before.closes
        || (|now.closes| == |before.closes| + 1 && before.closes < now.closes && now.closes[|before.closes|].id == id))
  }

  /** What was sent stays on record. */
  ghost predicate Extends(before: Sent, now: Sent) {
    before.posts <= now.posts && before.comments <= now.comments && before.closes <= now.closes
  }

  /** The bucket is on record as closed, and the answer names its issue. */
  predicate ClosedFor(s: State, id: Identity, answer: Answer) {
    id in s.recoveries && s.recoveries[id].status == Closed && answer == BucketClosed(s.recoveries[id].issue)
  }

  predicate OwnsBucket(d: Delivery, key: string) {
    d.status == Delivered && d.payload.management == Some(key)
  }

  predicate Overtaken(s: State, id: Identity) {
    id.key in s.latest && s.latest[id.key].order >= id.order
  }

  /** An unfinished recovery that no other unfinished recovery of its bucket outranks. */
  predicate Leads(s: State, among: seq<Identity>, id: Identity) {
    && id in among && id in s.recoveries && !Terminal(s.recoveries[id].status)
    && forall other <- among | other in s.recoveries && other.key == id.key && !Terminal(s.recoveries[other].status) ::
         other.order <= id.order
  }

  predicate Selected(s: State, among: seq<Identity>, chosen: map<string, Identity>) {
    && (forall key <- chosen :: Leads(s, among, chosen[key]) && chosen[key].key == key)
    && (forall id <- among | id in s.recoveries && !Terminal(s.recoveries[id].status) :: id.key in chosen)
  }

  class Wire {
    ghost const epoch: string
    ghost var sent: Sent

    constructor (ghost epoch: string)
      ensures this.epoch == epoch && sent == Sent([], [], [])
    {
      this.epoch := epoch;
      sent := Sent([], [], []);
    }
  }

  class Client {
    const journal: Journal<Data>
    const wire: Wire
    const epoch: string
    const persistVerified: bool
    var state: State
    /** The committed history this process's state stands for; the journal may be ahead after an uncertain write. */
    ghost var known: Log

    ghost predicate Valid()
      reads this, journal, journal.store, wire
    {
      && epoch == wire.epoch
      && journal.Valid()
      && Intact(journal.store.world, epoch, wire.sent)
    }

    ghost predicate Behind()
      reads this, journal, journal.store, wire
    {
      && Valid()
      && known <= Committed(journal.store.world)
      && Replay(NewState(epoch), known) == Success(state)
      && Covered(known, epoch, wire.sent)
    }

    /** This process knows exactly what is committed, nothing is pending, and the journal can be read. */
    ghost predicate Current()
      reads this, journal, journal.store, wire
    {
      && Behind()
      && known == Committed(journal.store.world)
      && journal.store.world.checkpoint.pending.None?
      && Readable(journal.store.world)
    }

    constructor (journal: Journal<Data>, wire: Wire, epoch: string, persistVerified: bool)
      requires epoch == wire.epoch && journal.Valid() && Intact(journal.store.world, epoch, wire.sent)
      ensures Valid() && this.journal == journal && this.wire == wire && this.epoch == epoch
    {
      this.journal, this.wire, this.epoch, this.persistVerified := journal, wire, epoch, persistVerified;
      state, known := NewState(epoch), [];
    }

    method Rebuild(events: Log) returns (r: Result<State>)
      ensures r == Replay(NewState(epoch), events)
    {
      hide Reduce;
      var s := NewState(epoch);
      assert events[0..] == events;
      for i := 0 to |events|
        invariant Replay(NewState(epoch), events) == Replay(s, events[i..])
      {
        assert events[i..][1..] == events[i + 1..];
        s :- Reduce(s, events[i]);
      }
      return Success(s);
    }

    /** Writes the verified prefix to the anchor, if this process persists it. */
    method Upgrade(net: Network<Data>) returns (ok: bool)
      requires Valid() && journal.verified.Some? && journal.verified.value.head == journal.store.world.checkpoint.head
      modifies journal`verified, journal.store
      ensures old(journal.store.trace) <= journal.store.trace
      ensures Valid() && Committed(journal.store.world) == old(Committed(journal.store.world))
      ensures journal.store.world.checkpoint.pending == old(journal.store.world.checkpoint.pending)
      ensures journal.store.world.comments == old(journal.store.world.comments)
      ensures old(Readable(journal.store.world)) ==> Readable(journal.store.world)
      ensures ok && persistVerified ==>
        var c := journal.store.world.checkpoint;
        c.verified == Some(Prefix(c.head, |Committed(journal.store.world)|))
      ensures (persistVerified ==> Unhindered(net)) ==> ok
    {
      hide Replay, Intact, Within;
      if !persistVerified {
        return true;
      }
      ghost var before := journal.store.world;
      var upgraded := journal.PersistVerified(net);
      IntactWithout(before, journal.store.world, epoch, wire.sent);
      return upgraded.Success?;
    }

    /** Adopts the authenticated history; the anchor is upgraded before the state is published. */
    method Load(from: Reload) returns (ok: bool)
      requires Valid() && Faithful(from.net, journal.store.genuine)
      modifies this, journal`verified, journal.store
      ensures old(journal.store.trace) <= journal.store.trace
      ensures Valid()
      ensures ok ==> Current() && known == old(Loaded(journal.store.world))
      ensures ok && persistVerified ==>
        var c := journal.store.world.checkpoint;
        c.verified == Some(Prefix(c.head, |known|))
      ensures old(Readable(journal.store.world)) && Swift(from, journal.store.world.comments, persistVerified) ==> ok
    {
      hide Replay, Intact, Within, Readable;
      if !from.locked {
        return false;
      }
      ghost var before := journal.store.world;
      IntactLog(before, epoch, wire.sent);
      var loaded := journal.Load(from.net);
      IntactWithout(before, journal.store.world, epoch, wire.sent);
      if loaded.Failure? {
        return false;
      }
      var rebuilt := Rebuild(loaded.value);
      if rebuilt.Failure? {
        return false;
      }
      ok := Upgrade(from.upgrade);
      if ok {
        state := rebuilt.value;
        known := loaded.value;
        IntactCovers(journal.store.world, epoch, wire.sent);
      }
    }

    /** Appends a validated event; whatever happens, the journal stays intact and ahead of this process by that event at most. */
    method Submit(event: Event<Data>, at: Surroundings<Data>) returns (r: Result<Log>)
      requires Behind() && Trusty(at, journal.store.genuine)
      requires event.id == FenceId(state.epoch, state.generation) && event.epoch == state.epoch && event.generation == state.generation
      requires Reduce(state, event).Success?
      modifies journal`verified, journal.store
      ensures old(journal.store.trace) <= journal.store.trace
      ensures Behind()
      ensures event.id !in state.events
      ensures r.Success? ==> r.value == Committed(journal.store.world)
      ensures r.Success? ==> journal.store.world.checkpoint.pending.None? && Readable(journal.store.world)
      ensures r.Success? && Replay(NewState(epoch), r.value) == Reduce(state, event) ==> r.value == known + [event]
      ensures old(journal.store.world.comments) <= journal.store.world.comments
      ensures old(Current()) && Smooth(at.before, at.prepare, at.fate, at.after, journal.store.world.comments) ==>
        r == Success(known + [event]) && Replay(NewState(epoch), known + [event]) == Reduce(state, event)
    {
      hide Replay, Intact, Within, Reduce, Covered, Named, Transition, Smooth, Readable;
      ghost var before := journal.store.world;
      IntactLog(before, epoch, wire.sent);
      journal.store.Sound();
      LoadedIsUnique(before);
      FenceCases(known, Loaded(before), epoch, state, event);
      r := journal.Append(event, at.before, at.prepare, at.fate, at.after);
      if Loaded(before) == known {
        IntactStays(before, journal.store.world, known + [event], epoch, wire.sent);
      } else {
        IntactWithout(before, journal.store.world, epoch, wire.sent);
      }
      WithinIs(before, journal.store.world, Loaded(before) + [event]);
    }

    /** Validates, appends and adopts one event. A failure leaves the state as it was, whatever the journal now holds. */
    method Persist(data: Data, at: Surroundings<Data>) returns (ok: bool)
      requires Behind() && Trusty(at, journal.store.genuine)
      modifies this`state, this`known, journal`verified, journal.store
      ensures old(journal.store.trace) <= journal.store.trace
      ensures Behind()
      ensures ok ==> Reduce(old(state), old(EventOf(state, data))) == Success(state) && old(EventOf(state, data).id !in state.events)
      ensures ok ==> known == old(known) + [old(EventOf(state, data))] == Committed(journal.store.world)
      ensures !ok ==> known == old(known) && state == old(state)
      ensures ok ==> Current()
      ensures old(journal.store.world.comments) <= journal.store.world.comments
      ensures Transition(old(state), data).Failure? ==> !ok && journal.store.world == old(journal.store.world)
      ensures old(Current()) && Flawless(at, journal.store.world.comments) && Transition(old(state), data).Success? ==> ok
    {
      hide Replay, Intact, Within, Reduce, Covered, Named, Transition, Smooth, Readable;
      KnownFence(data);
      if !at.locked {
        return false;
      }
      var event := EventOf(state, data);
      var expected := Reduce(state, event);
      if expected.Failure? {
        return false;
      }
      var appended := Submit(event, at);
      if appended.Failure? {
        return false;
      }
      var committed := Rebuild(appended.value);
      if committed != expected {
        return false;
      }
      IntactCovers(journal.store.world, epoch, wire.sent);
      state := committed.value;
      known := known + [event];
      return true;
    }

    lemma KnownFence(data: Data)
      requires Behind()
      ensures var t := Transition(state, data);
        Reduce(state, EventOf(state, data)) == if t.Failure? then Failure else Success(Stamp(t.value, EventOf(state, data)))
      ensures FenceId(state.epoch, state.generation) !in state.events
    {
      hide Replay, Reduce, Transition, FenceId;
      journal.store.Sound();
      IntactLog(journal.store.world, epoch, wire.sent);
      LoadedIsUnique(journal.store.world);
      UniquePart(known, Loaded(journal.store.world));
      FenceWorks(known, epoch, state, data);
    }

    /** A visible receipt counts only if it is the claimed, acknowledged write in the known bucket. */
    method FindReceipt(id: DeliveryId, seen: Result<Option<Receipt>>) returns (r: Result<Option<Receipt>>)
      requires id in state.deliveries
      ensures r.Success? && r.value.Some? && Positive(r.value.value) ==> Matches(state, state.deliveries[id], r.value.value)
      ensures r.Success? ==> seen == r
      ensures seen.Success? && seen.value.Some? && Matches(state, state.deliveries[id], seen.value.value) ==> r == seen
      ensures seen == Success(None) ==> r == seen
    {
      var receipt :- seen;
      if receipt.None? {
        return Success(None);
      }
      var found, d := receipt.value, state.deliveries[id];
      if d.payload.key in state.buckets && state.buckets[d.payload.key] != found.issue {
        return Failure;
      }
      if d.ack.Some? && d.ack.value != found {
        return Failure;
      }
      if d.claim.Some? {
        var target := if d.claim.value.CreateComment? then Some(d.claim.value.number) else None;
        if (target.Some? && target.value != found.issue) || (d.claim.value.CreateIssue? != found.comment.None?) {
          return Failure;
        }
      }
      return Success(Some(found));
    }

    /** Makes the claim durable, and only then issues the POST. */
    method Issue(id: DeliveryId, operation: Operation, at: Surroundings<Data>) returns (ok: bool)
      requires Behind() && Quiet(state, id) && Trusty(at, journal.store.genuine)
      modifies this`state, this`known, journal`verified, journal.store, wire
      ensures old(journal.store.trace) <= journal.store.trace
      ensures Behind() && Quiet(state, id)
      ensures state.deliveries.Keys == old(state.deliveries.Keys)
      ensures forall other <- state.deliveries | other != id :: state.deliveries[other] == old(state.deliveries)[other]
      ensures ok ==>
        && wire.sent == old(wire.sent).(posts := old(wire.sent.posts) + [Posting(id, |old(known)| + 1)])
        && old(id in state.deliveries && state.deliveries[id].status == Queued)
        && state.deliveries[id].status == Claimed
      ensures !ok ==> wire.sent == old(wire.sent) && state == old(state) && known == old(known)
      ensures ok ==> Current()
      ensures ok ==> state.buckets == old(state.buckets) && state.deliveries[id] == old(state.deliveries[id]).(claim := Some(operation), status := Claimed)
      ensures old(id in state.deliveries && state.deliveries[id].status != Queued) ==>
        !ok && journal.store.world == old(journal.store.world)
      ensures old(journal.store.world.comments) <= journal.store.world.comments
      ensures
        && old(Current()) && Flawless(at, journal.store.world.comments)
        && old(id in state.deliveries && state.deliveries[id].status == Queued && Intends(state, state.deliveries[id].payload, operation))
        ==> ok
    {
      hide Replay, Reduce, Intact, Covered, Orderly, Within, Readable, Flawless;
      ghost var before, log := state, known;
      ClaimMeans(before, id, operation);
      ok := Persist(ClaimReport(id, operation), at);
      if ok {
        ClaimTakesOne(before, id, operation, state);
        PostingFits(log, EventOf(before, ClaimReport(id, operation)), journal.store.world, epoch, wire.sent, state, id);
        wire.sent := wire.sent.(posts := wire.sent.posts + [Posting(id, |known|)]);
      }
    }

    /** Records what the API answered to a claimed POST, as far as that can be trusted. */
    method Acknowledge(id: DeliveryId, operation: Operation, answer: PostAnswer, at: Surroundings<Data>) returns (ok: bool)
      requires Behind() && Quiet(state, id) && Trusty(at, journal.store.genuine)
      requires id in state.deliveries && state.deliveries[id].status != Queued
      modifies this`state, this`known, journal`verified, journal.store
      ensures old(journal.store.trace) <= journal.store.trace
      ensures Behind() && Quiet(state, id)
      ensures state.deliveries.Keys == old(state.deliveries.Keys) && state.deliveries[id].status != Queued
      ensures forall other <- state.deliveries | other != id :: state.deliveries[other] == old(state.deliveries)[other]
      ensures old(journal.store.world.comments) <= journal.store.world.comments
      ensures
        && old(Current()) && Flawless(at, journal.store.world.comments) && answer.Answered? && answer.written.Some?
        && Transition(old(state), AckReport(id, ReceiptFor(operation, answer.written.value))).Success?
        ==> Current() && Written(state, id, ReceiptFor(operation, answer.written.value))
      ensures
        && old(Current()) && Flawless(at, journal.store.world.comments) && old(state.deliveries[id].status) == Claimed
        && answer.Rejected? && 400 <= answer.httpStatus < 500
        ==> Current() && state.deliveries[id] == old(state.deliveries[id]).(status := Refused)
      ensures answer.Died? || (answer.Rejected? && !(400 <= answer.httpStatus < 500)) || (answer.Answered? && answer.written.None?) ==>
        state == old(state) && journal.store.world == old(journal.store.world)
    {
      hide Replay, Reduce, Intact, Covered, Orderly, Within, Behind, Valid, Faithful, Quiet, Readable, Flawless, Transition, Matches;
      ghost var before := state;
      match answer {
        case Died => return false;
        case Rejected(status) =>
          if 400 <= status < 500 {
            RefuseMeans(state, id, status);
            ok := Persist(RefuseReport(id, status), at);
            if ok {
              RefuseIs(before, id, status, state);
              OnlyTouches(before, RefuseReport(id, status), id, state);
              StaysOutOfQueue(before, RefuseReport(id, status), id, state);
            }
          }
          return false;
        case Answered(written) =>
          if written.None? {
            return true;
          }
          var receipt := ReceiptFor(operation, written.value);
          ok := Persist(AckReport(id, receipt), at);
          if ok {
            OnlyTouches(before, AckReport(id, receipt), id, state);
            StaysOutOfQueue(before, AckReport(id, receipt), id, state);
            AckIsWritten(before, id, receipt, state);
          }
      }
    }

    /** The posting proxy: the POST is issued only after its claim is durable, and at most once per claim. */
    method Post(id: DeliveryId, operation: Operation, answer: PostAnswer, at: nat -> Surroundings<Data>) returns (ok: bool)
      requires Behind() && Quiet(state, id) && forall n :: Trusty(at(n), journal.store.genuine)
      modifies this`state, this`known, journal`verified, journal.store, wire
      ensures old(journal.store.trace) <= journal.store.trace
      ensures Behind() && Quiet(state, id)
      ensures state.deliveries.Keys == old(state.deliveries.Keys)
      ensures forall other <- state.deliveries | other != id :: state.deliveries[other] == old(state.deliveries)[other]
      ensures wire.sent == old(wire.sent)
        || (&& wire.sent == old(wire.sent).(posts := old(wire.sent.posts) + [Posting(id, |old(known)| + 1)])
            && old(id in state.deliveries && state.deliveries[id].status == Queued)
            && state.deliveries[id].status != Queued)
      ensures old(id in state.deliveries && state.deliveries[id].status != Queued) ==>
        && state == old(state) && known == old(known) && wire.sent == old(wire.sent)
        && journal.store.world == old(journal.store.world)
      ensures old(journal.store.world.comments) <= journal.store.world.comments
      ensures
        && old(Current()) && old(Landed(state, id, operation, answer)) && old(state.deliveries[id].ack.None?)
        && Flawless(at(0), journal.store.world.comments) && Flawless(at(1), journal.store.world.comments)
        ==> Current() && Written(state, id, ReceiptFor(operation, answer.written.value))
    {
      hide Replay, Reduce, Intact, Covered, Orderly, Within, Behind, Valid, Faithful, Quiet, Readable, Flawless, Matches, Transition;
      ghost var before := state;
      ok := Issue(id, operation, at(0));
      if !ok {
        return false;
      }
      if Landed(before, id, operation, answer) && before.deliveries[id].ack.None? {
        SameIntent(before, state, state.deliveries[id].payload, operation);
        AckMeans(state, id, operation, answer.written.value);
      }
      ok := Acknowledge(id, operation, answer, at(1));
    }

    /** Settles one unresolved write by its visible receipt, or leaves everything as it is. */
    method Resolve(id: DeliveryId, status: Status, seen: Result<Option<Receipt>>, at: Surroundings<Data>) returns (ok: bool)
      requires Behind() && Trusty(at, journal.store.genuine) && id in state.deliveries
      modifies this`state, this`known, journal`verified, journal.store
      ensures old(journal.store.trace) <= journal.store.trace
      ensures Behind()
      ensures state.deliveries.Keys == old(state.deliveries.Keys)
      ensures forall other <- state.deliveries | other != id :: state.deliveries[other] == old(state.deliveries)[other]
      ensures ok ==> state.deliveries[id].status == Delivered && seen == Success(state.deliveries[id].receipt) && status != Refused
      ensures ok ==> Current() && state.queued == old(state.queued) && state.latest == old(state.latest)
      ensures ok ==> seen.Success? && seen.value.Some?
      ensures ok ==> state.buckets == old(state.buckets)[old(state.deliveries[id].payload.key) := seen.value.value.issue]
      ensures !ok ==> state == old(state)
      ensures
        && old(Current()) && Flawless(at, journal.store.world.comments) && status != Refused
        && old(Open(state.deliveries[id].status)) && seen.Success? && seen.value.Some?
        && Matches(old(state), old(state.deliveries[id]), seen.value.value)
        ==> ok
    {
      hide Replay, Reduce, Intact, Covered, Readable, Flawless, Within;
      var receipt := FindReceipt(id, seen);
      if receipt.Failure? || receipt.value.None? || status == Refused {
        return false;
      }
      ghost var before := state;
      var data := DeliverReport(id, receipt.value.value);
      SettleMeans(state, id, receipt.value.value);
      ok := Persist(data, at);
      if ok {
        OnlyTouches(before, data, id, state);
        DeliverSettles(before, data, id, state);
      }
    }

    /** Goes through the deliveries of the loaded state in order, and stops at the first that cannot be settled. */
    method ResolveAll(api: Api) returns (done: bool)
      requires Behind() && Usable(api, journal.store.genuine) && KeysKept(state)
      modifies this`state, this`known, journal`verified, journal.store
      ensures old(journal.store.trace) <= journal.store.trace
      ensures Behind() && Settles(old(state), state)
      ensures done ==> AllResolved(state)
      ensures done && old(Current()) ==> Current()
      ensures AllResolved(old(state)) ==> done && state == old(state) && journal.store.world == old(journal.store.world)
      ensures old(Current()) && Calm(api, journal.store.world.comments) && Visible(old(state), api) ==> done
    {
      hide Replay, Reduce, Intact, Covered, Within, Sound, Behind, Valid, Current, Matches, KeysKept, Scanned, Settles, Readable, Flawless, Visible, StillVisible;
      var snapshot := state;
      NothingScanned(snapshot);
      FirstVisible(snapshot, api);
      for i := 0 to |snapshot.queued|
        invariant Behind() && Scanned(snapshot, state, i)
        invariant old(journal.store.trace) <= journal.store.trace
        invariant old(Current()) ==> Current()
        invariant Visible(snapshot, api) ==> StillVisible(snapshot, state, api)
        invariant AllResolved(snapshot) ==> state == snapshot && journal.store.world == old(journal.store.world)
      {
        var id := snapshot.queued[i];
        ScanKnows(snapshot, state, i);
        var status := snapshot.deliveries[id].status;
        ghost var before := state;
        if !Resolved(status) {
          if Visible(snapshot, api) {
            VisibleMatches(snapshot, state, api, id);
          }
          var resolved := Resolve(id, status, api.observed(0, id), api.at(i));
          if !resolved {
            return false;
          }
          if Visible(snapshot, api) {
            VisibleOn(snapshot, before, state, api, id);
          }
        }
        ScanOneMore(snapshot, before, state, i);
      }
      EverythingScanned(snapshot, state);
      return true;
    }

    /** Bounded read reconciliation: an unresolved write without a receipt stops everything, and is never repeated. */
    method Recover(api: Api) returns (r: Result<Answer>)
      requires Valid() && Usable(api, journal.store.genuine)
      modifies this, journal`verified, journal.store
      ensures old(journal.store.trace) <= journal.store.trace
      ensures Valid()
      ensures r.Success? ==> Behind() && (r.value == Ready || r.value == NeedsReconciliation)
      ensures r == Success(Ready) ==> Current() && AllResolved(state)
      ensures
        var found := Replay(NewState(epoch), old(Loaded(journal.store.world)));
        && found.Success?
        && (r.Success? ==> Settles(found.value, state))
        && (r.Success? && AllResolved(found.value) ==> r.value == Ready && state == found.value)
      ensures old(Readable(journal.store.world)) && Swift(api.load(1), journal.store.world.comments, persistVerified) ==> r.Success?
      ensures
        var found := Replay(NewState(epoch), old(Loaded(journal.store.world)));
        && found.Success? && old(Readable(journal.store.world)) && Visible(found.value, api)
        && Swift(api.load(1), journal.store.world.comments, persistVerified) && Calm(api, journal.store.world.comments)
        ==> r == Success(Ready)
    {
      hide Replay, Reduce, Intact, Covered, Within, Sound, Readable, KeysKept, Settles, AllResolved, Visible, Calm;
      IntactLog(journal.store.world, epoch, wire.sent);
      var ok := Load(api.load(1));
      if !ok {
        return Failure;
      }
      KnownKeys();
      var done := ResolveAll(api);
      return Success(if done then Ready else NeedsReconciliation);
    }

    lemma KnownKeys()
      requires Behind()
      ensures KeysKept(state) && RowsSound(state)
    {
      hide Replay, Intact;
      journal.store.Sound();
      KnownIsUnique(known, journal.store.world);
      ReplayIsSound(known, epoch);
    }

    /** The adapter calls the proxy any number of times, whatever the earlier calls did. */
    method RunAdapter(id: DeliveryId, calls: seq<ProxyCall>)
      requires Behind() && Quiet(state, id) && id in state.deliveries
      requires forall c <- calls, n :: Trusty(c.at(n), journal.store.genuine)
      modifies this`state, this`known, journal`verified, journal.store, wire
      ensures old(journal.store.trace) <= journal.store.trace
      ensures Behind() && id in state.deliveries
      ensures wire.sent.comments == old(wire.sent.comments) && wire.sent.closes == old(wire.sent.closes)
      ensures wire.sent.posts == old(wire.sent.posts) || AddsOne(old(wire.sent.posts), wire.sent.posts, id)
      ensures old(Current()) && Lands(old(state), id, calls, journal.store.world.comments) ==>
        Current() && Written(state, id, ReceiptOf(calls))
    {
      hide Replay, Reduce, Intact, Covered, Within, Sound, Quiet, Behind, Valid, Faithful, Readable, Flawless, Written, Trusty;
      for i := 0 to |calls|
        invariant Behind() && Quiet(state, id) && id in state.deliveries
        invariant old(journal.store.trace) <= journal.store.trace
        invariant wire.sent.comments == old(wire.sent.comments) && wire.sent.closes == old(wire.sent.closes)
        invariant wire.sent.posts == old(wire.sent.posts)
                  || (AddsOne(old(wire.sent.posts), wire.sent.posts, id) && state.deliveries[id].status != Queued)
        invariant i == 0 ==> state == old(state) && known == old(known) && journal.store.world == old(journal.store.world)
        invariant i == 0 ==> (Current() <==> old(Current()))
        invariant i > 0 && old(Current()) && Lands(old(state), id, calls, journal.store.world.comments) ==>
          Current() && Written(state, id, ReceiptOf(calls))
      {
        ghost var comments := journal.store.world.comments;
        if Written(state, id, ReceiptOf(calls)) {
          WrittenIsClaimed(state, id, ReceiptOf(calls));
        }
        var posted := Post(id, calls[i].operation, calls[i].answer, calls[i].at);
        if Lands(old(state), id, calls, journal.store.world.comments) {
          LandsPart(old(state), id, calls, comments, journal.store.world.comments);
        }
      }
    }

    /** Drives the adapter, and accepts the report as delivered only by its visible receipt. */
    method Attempt(id: DeliveryId, calls: seq<ProxyCall>, raises: bool, api: Api) returns (r: Result<Answer>)
      requires Behind() && Usable(api, journal.store.genuine) && Quiet(state, id) && id in state.deliveries
      requires forall c <- calls, n :: Trusty(c.at(n), journal.store.genuine)
      modifies this`state, this`known, journal`verified, journal.store, wire
      ensures old(journal.store.trace) <= journal.store.trace
      ensures Behind()
      ensures wire.sent.comments == old(wire.sent.comments) && wire.sent.closes == old(wire.sent.closes)
      ensures wire.sent.posts == old(wire.sent.posts) || AddsOne(old(wire.sent.posts), wire.sent.posts, id)
      ensures r.Success? ==>
        && Current() && r.value.Arrived? && api.observed(1, id) == Success(Some(r.value.receipt))
        && id in state.deliveries && state.deliveries[id].status == Delivered && state.deliveries[id].receipt == Some(r.value.receipt)
      ensures
        && old(Current()) && Lands(old(state), id, calls, journal.store.world.comments) && !raises
        && api.observed(1, id) == Success(Some(ReceiptOf(calls))) && Flawless(api.at(1), journal.store.world.comments)
        ==> r.Success?
    {
      hide Replay, Reduce, Intact, Covered, Within, Sound, Quiet, Behind, Valid, Matches, AddsOne, Readable, Flawless, Trusty;
      hide Landed, Transition;
      ghost var before := state;
      RunAdapter(id, calls);
      ghost var after := journal.store.world.comments;
      if Written(state, id, ReceiptOf(calls)) {
        WrittenSettles(state, id, ReceiptOf(calls));
      }
      if raises {
        return Failure;
      }
      var receipt :- FindReceipt(id, api.observed(1, id));
      if receipt.None? {
        return Failure;
      }
      ghost var adapted := state;
      var data := DeliverReport(id, receipt.value);
      var ok := Persist(data, api.at(1));
      if Lands(before, id, calls, journal.store.world.comments) {
        LandsPart(before, id, calls, after, journal.store.world.comments);
      }
      if !ok {
        return Failure;
      }
      DeliverSettles(adapted, data, id, state);
      return Success(Arrived(receipt.value));
    }

    /** Recovers, and then attempts the queued report unless its write turns out to be delivered. */
    method Finish(id: DeliveryId, calls: seq<ProxyCall>, raises: bool, api: Api) returns (r: Result<Answer>)
      requires Valid() && Usable(api, journal.store.genuine) && forall c <- calls, n :: Trusty(c.at(n), journal.store.genuine)
      modifies this, journal`verified, journal.store, wire
      ensures old(journal.store.trace) <= journal.store.trace
      ensures Valid()
      ensures r.Success? ==> Behind()
      ensures wire.sent.comments == old(wire.sent.comments) && wire.sent.closes == old(wire.sent.closes)
      ensures wire.sent.posts == old(wire.sent.posts) || AddsOne(old(wire.sent.posts), wire.sent.posts, id)
      ensures r.Success? ==> r.value == NeedsReconciliation || (r.value.Arrived? && Current())
      ensures r.Success? && r.value.Arrived? ==>
        id in state.deliveries && state.deliveries[id].status == Delivered && state.deliveries[id].receipt == Some(r.value.receipt)
      ensures
        var found := Replay(NewState(epoch), old(Loaded(journal.store.world)));
        found.Success? && (r == Success(NeedsReconciliation) ==> !AllResolved(found.value))
      ensures
        var found := Replay(NewState(epoch), old(Loaded(journal.store.world)));
        && old(Readable(journal.store.world)) && found.Success? && AllResolved(found.value)
        && Lands(found.value, id, calls, journal.store.world.comments) && !raises
        && Swift(api.load(1), journal.store.world.comments, persistVerified) && Flawless(api.at(1), journal.store.world.comments)
        && api.observed(1, id) == Success(Some(ReceiptOf(calls)))
        ==> r == Success(Arrived(ReceiptOf(calls)))
    {
      hide Replay, Reduce, Intact, Covered, Within, Sound, Quiet, Matches, AddsOne, Readable, Flawless, Trusty, AllResolved;
      hide Transition, Usable, Swift, Intends, Settles;
      var pending :- Recover(api);
      if pending != Ready {
        return Success(pending);
      }
      if id !in state.deliveries {
        return Failure;
      }
      if state.deliveries[id].status == Delivered {
        KnownEvidence(id);
        return Success(Arrived(state.deliveries[id].receipt.value));
      }
      ResolvedIsQuiet(state, id);
      r := Attempt(id, calls, raises, api);
    }

    /** Queues the report if it is new, recovers, and drives the adapter through the posting proxy. */
    method Deliver(p: Payload, calls: seq<ProxyCall>, raises: bool, api: Api) returns (r: Result<Answer>)
      requires Valid() && Usable(api, journal.store.genuine) && forall c <- calls, n :: Trusty(c.at(n), journal.store.genuine)
      modifies this, journal`verified, journal.store, wire
      ensures old(journal.store.trace) <= journal.store.trace
      ensures Valid()
      ensures r.Success? ==> Behind()
      ensures wire.sent.comments == old(wire.sent.comments) && wire.sent.closes == old(wire.sent.closes)
      ensures wire.sent.posts == old(wire.sent.posts) || AddsOne(old(wire.sent.posts), wire.sent.posts, IdOf(p))
      ensures r.Success? && r.value.Arrived? ==>
        IdOf(p) in state.deliveries && state.deliveries[IdOf(p)].status == Delivered
        && state.deliveries[IdOf(p)].receipt == Some(r.value.receipt)
      ensures
        var found := Replay(NewState(epoch), old(Loaded(journal.store.world)));
        && found.Success?
        && (r.Success? ==> (r.value == StaleReport <==> Outrun(found.value, p)))
        && (Outrun(found.value, p) ==> wire.sent == old(wire.sent))
        && (r == Success(StaleReport) ==> Current() && state == found.value)
        && (r.Success? && r.value != StaleReport ==> r.value == NeedsReconciliation || r.value.Arrived?)
        && (r == Success(NeedsReconciliation) ==> !AllResolved(found.value))
      ensures
        var found := Replay(NewState(epoch), old(Loaded(journal.store.world)));
        && old(Readable(journal.store.world)) && found.Success?
        && Prospers(found.value, p, calls, raises, api, journal.store.world.comments, persistVerified)
        ==> r == Success(Arrived(ReceiptOf(calls)))
    {
      hide Replay, Reduce, Intact, Covered, Within, Sound, Quiet, Valid, Matches, AddsOne, Readable, Flawless, Trusty, AllResolved;
      hide Landed, Transition, Lands, Swift, Intends;
      FoundReplays();
      var ok := Load(api.load(0));
      if !ok {
        return Failure;
      }
      CurrentReplays();
      ghost var found := state;
      var id := IdOf(p);
      if p.order.Some? && p.key in state.latest && p.order.value < state.latest[p.key].order {
        return Success(StaleReport);
      }
      if id in state.deliveries {
        if state.deliveries[id].payload != p {
          return Failure;
        }
        if state.deliveries[id].status == Queued {
          KnownQueued(id);
        }
      } else {
        QueueMeans(state, p);
        ok := Persist(QueueReport(id, p), api.at(0));
        if !ok {
          return Failure;
        }
        QueueAdds(found, p, state);
      }
      CurrentReplays();
      ghost var queued := state;
      r := Finish(id, calls, raises, api);
      if Deliverable(found, p) && Carried(found, p, calls, journal.store.world.comments) {
        CarriedLands(found, queued, p, calls, journal.store.world.comments);
      }
    }

    lemma CurrentReplays()
      requires Current()
      ensures Replay(NewState(epoch), Loaded(journal.store.world)) == Success(state)
    {
      hide Replay;
    }

    lemma FoundReplays()
      requires Valid()
      ensures Replay(NewState(epoch), Loaded(journal.store.world)).Success?
    {
      hide Replay;
    }

    lemma KnownQueued(id: DeliveryId)
      requires Behind() && id in state.deliveries && state.deliveries[id].status == Queued
      ensures state.deliveries[id].ack.None?
    {
      hide Replay, Intact;
      journal.store.Sound();
      KnownIsUnique(known, journal.store.world);
      ReplayIsSound(known, epoch);
      assert DeliverySound(state, id, Claims(known, id), Clears(known, id));
    }

    lemma KnownEvidence(id: DeliveryId)
      requires Behind() && id in state.deliveries && state.deliveries[id].status == Delivered
      ensures state.deliveries[id].receipt.Some? && Positive(state.deliveries[id].receipt.value)
    {
      hide Replay, Intact;
      journal.store.Sound();
      KnownIsUnique(known, journal.store.world);
      ReplayIsSound(known, epoch);
      assert DeliverySound(state, id, Claims(known, id), Clears(known, id));
    }

    /** Returns an uncertain claim to the queue once its POST is proven absent. */
    method ClearAbsent(id: DeliveryId, claim: Operation, api: Api) returns (r: Result<Answer>)
      requires Behind() && Usable(api, journal.store.genuine) && id in state.deliveries
      modifies this`state, this`known, journal`verified, journal.store
      ensures old(journal.store.trace) <= journal.store.trace
      ensures Valid()
      ensures r.Success? ==>
        && r.value == ClaimCleared && Behind()
        && id in state.deliveries && state.deliveries[id].status == Queued && state.deliveries[id].claim.None?
        && Clears(known, id) == Clears(old(known), id) + 1
        && api.observed(0, id) == Success(None) && (claim.CreateIssue? ==> api.candidate(id) == Success(false))
      ensures
        && old(Current()) && Flawless(api.at(0), journal.store.world.comments) && old(state.deliveries[id].status) == Claimed
        && old(state.deliveries[id].claim) == Some(claim)
        && api.observed(0, id) == Success(None) && (claim.CreateIssue? ==> api.candidate(id) == Success(false))
        ==> r.Success?
    {
      hide Replay, Reduce, Intact, Covered, Readable, Flawless, Within;
      if claim.CreateIssue? {
        var visible :- api.candidate(id);
        if visible {
          return Failure;
        }
      }
      var receipt :- FindReceipt(id, api.observed(0, id));
      if receipt.Some? {
        return Failure;
      }
      ghost var before, log := state, known;
      var data := ClearClaim(id, claim, "operator-audited complete inventory absence");
      ClearMeans(state, data);
      var ok := Persist(data, api.at(0));
      if !ok {
        return Failure;
      }
      ClearReturns(before, data, id, state);
      Snoc(log, EventOf(before, data));
      return Success(ClaimCleared);
    }

    /** Operator-audited settlement of one uncertain claim: proves its POST absent, or binds its live receipt. Posts nothing. */
    method ReconcileClaim(id: DeliveryId, claim: Operation, resolution: Resolution, api: Api) returns (r: Result<Answer>)
      requires Valid() && Usable(api, journal.store.genuine)
      modifies this, journal`verified, journal.store
      ensures old(journal.store.trace) <= journal.store.trace
      ensures Valid()
      ensures r.Success? ==> r.value == ClaimCleared || r.value.Arrived?
      ensures r == Success(ClaimCleared) ==>
        && resolution == Absent
        && id in state.deliveries && state.deliveries[id].status == Queued && state.deliveries[id].claim.None?
        && Clears(known, id) == Clears(old(Loaded(journal.store.world)), id) + 1
        && api.observed(0, id) == Success(None) && (claim.CreateIssue? ==> api.candidate(id) == Success(false))
      ensures r.Success? && r.value.Arrived? ==>
        resolution == Bind(r.value.receipt) && api.observed(0, id) == Success(Some(r.value.receipt))
        && id in state.deliveries && state.deliveries[id].receipt == Some(r.value.receipt)
      ensures
        var found := Replay(NewState(epoch), old(Loaded(journal.store.world)));
        && found.Success?
        && (r.Success? ==> Uncertain(found.value, id, claim))
        && (r == Success(ClaimCleared) ==> found.value.deliveries[id].status == Claimed)
      ensures
        var found := Replay(NewState(epoch), old(Loaded(journal.store.world)));
        && found.Success? && old(Readable(journal.store.world)) && Swift(api.load(0), journal.store.world.comments, persistVerified)
        && Flawless(api.at(0), journal.store.world.comments)
        && Uncertain(found.value, id, claim) && Audited(found.value, id, claim, resolution, api)
        ==> r.Success?
    {
      hide Replay, Reduce, Intact, Covered, Clears, Readable, Flawless, Within, Swift, Matches, Valid;
      FoundReplays();
      var ok := Load(api.load(0));
      if !ok {
        return Failure;
      }
      CurrentReplays();
      if id !in state.deliveries || state.deliveries[id].claim != Some(claim) {
        return Failure;
      }
      var status := state.deliveries[id].status;
      if status != Claimed && status != Acknowledged {
        return Failure;
      }
      if resolution == Absent {
        if status != Claimed {
          return Failure;
        }
        r := ClearAbsent(id, claim, api);
        return;
      }
      var receipt :- FindReceipt(id, api.observed(0, id));
      if receipt != Some(resolution.receipt) {
        return Failure;
      }
      ghost var before := state;
      var data := DeliverReport(id, resolution.receipt);
      SettleMeans(state, id, resolution.receipt);
      ok := Persist(data, api.at(0));
      if !ok {
        return Failure;
      }
      DeliverSettles(before, data, id, state);
      return Success(Arrived(resolution.receipt));
    }
  
    // -------------------------------------------------------------- recoveries

    lemma KnownRow(id: Identity)
      requires Behind() && id in state.recoveries
      ensures RowSound(id, state.recoveries[id])
    {
      KnownKeys();
    }

    /** Moves one recovery; everything else stands. */
    method PersistRow(id: Identity, data: Data, at: Surroundings<Data>) returns (ok: bool)
      requires Behind() && Trusty(at, journal.store.genuine)
      requires Recovering(data) && !data.QueueRecovery? && data.id == id
      modifies this`state, this`known, journal`verified, journal.store
      ensures old(journal.store.trace) <= journal.store.trace
      ensures state.recoveries.Keys == old(state.recoveries.Keys)
      ensures Aside(old(state), state)
      ensures ok ==> Current()
      ensures Behind()
      ensures ok ==>
        && id in old(state).recoveries && NextRow(old(state).recoveries[id], data).Success?
        && state.recoveries == old(state).recoveries[id := NextRow(old(state).recoveries[id], data).value]
        && known == old(known) + [old(EventOf(state, data))] == Committed(journal.store.world)
      ensures !ok ==> state == old(state)
      ensures
        && old(Current()) && Flawless(at, journal.store.world.comments)
        && id in old(state).recoveries && NextRow(old(state).recoveries[id], data).Success?
        ==> ok
    {
      hide Replay, Reduce, Intact, Covered, NextRow, Readable, Flawless, Within;
      ghost var before := state;
      RowTransition(state, data, id);
      ok := Persist(data, at);
      if ok {
        RowMoves(before, data, id, state);
      }
    }

    /** Claims the recovery comment, POSTs it once, and records an exact answer. */
    method PostRecoveryComment(id: Identity, api: Api) returns (ok: bool)
      requires Behind() && Usable(api, journal.store.genuine) && id in state.recoveries
      modifies this`state, this`known, journal`verified, journal.store, wire
      ensures old(journal.store.trace) <= journal.store.trace
      ensures state.recoveries.Keys == old(state.recoveries.Keys)
      ensures Aside(old(state), state)
      ensures ok ==> Current()
      ensures Behind() && id in state.recoveries && state.latest == old(state.latest)
      ensures wire.sent.posts == old(wire.sent.posts) && wire.sent.closes == old(wire.sent.closes)
      ensures wire.sent.comments == old(wire.sent.comments)
        || (wire.sent.comments == old(wire.sent.comments) + [Commenting(id, |old(known)| + 1)]
            && old(state.recoveries[id].status) == Waiting)
      ensures ok ==> state.recoveries[id].status == CommentAcknowledged
      ensures ok ==>
        && wire.sent.comments == old(wire.sent.comments) + [Commenting(id, |old(known)| + 1)]
        && api.postComment(id).Success?
        && state.recoveries[id] == old(state.recoveries[id]).(
             commentClaim := state.recoveries[id].commentClaim, status := CommentAcknowledged,
             commentReceipt := Some(Receipt(old(state.recoveries[id].issue), api.postComment(id).value)))
        && state.recoveries[id].commentClaim.Some?
      ensures
        && old(Current()) && Calm(api, journal.store.world.comments) && old(state.recoveries[id].status) == Waiting
        && api.postComment(id).Success? && api.postComment(id).value.Some? && api.postComment(id).value.value > 0
        ==> ok
    {
      hide Replay, Reduce, Intact, Covered, Orderly, Within, Readable, NextRow, Flawless;
      KnownRow(id);
      ghost var before, log := state, known;
      var row := state.recoveries[id];
      CommentRow(row, id);
      ok := PersistRow(id, ClaimComment(id, PostComment(row.issue, row.recovery.commentBody)), api.at(10));
      if !ok {
        return false;
      }
      NotYetCommented(log, epoch, wire.sent, before, id);
      CommentFits(known, journal.store.world, epoch, wire.sent, state, id);
      wire.sent := wire.sent.(comments := wire.sent.comments + [Commenting(id, |known|)]);
      var answer := api.postComment(id);
      if answer.Failure? || answer.value.None? {
        return false;
      }
      AckRow(state.recoveries[id], id, Receipt(row.issue, answer.value));
      ok := PersistRow(id, AckComment(id, Receipt(row.issue, answer.value)), api.at(11));
    }

    /** Brings the recovery comment to an independently visible receipt; `false` means an operator has to look. */
    method CommentPhase(id: Identity, api: Api) returns (r: Result<bool>)
      requires Behind() && Usable(api, journal.store.genuine) && id in state.recoveries
      modifies this`state, this`known, journal`verified, journal.store, wire
      ensures old(journal.store.trace) <= journal.store.trace
      ensures state.recoveries.Keys == old(state.recoveries.Keys)
      ensures Aside(old(state), state)
      ensures old(Current()) && r.Success? ==> Current()
      ensures Behind() && id in state.recoveries && state.latest == old(state.latest)
      ensures wire.sent.posts == old(wire.sent.posts) && wire.sent.closes == old(wire.sent.closes)
      ensures wire.sent.comments == old(wire.sent.comments)
        || (wire.sent.comments == old(wire.sent.comments) + [Commenting(id, |old(known)| + 1)]
            && old(state.recoveries[id].status) == Waiting)
      ensures r == Success(true) ==> state.recoveries[id].status == CommentDelivered
      ensures r == Success(true) ==>
        || old(state.recoveries[id].status) == CommentDelivered
        || (api.recoveryComment(1, id).Success? && api.recoveryComment(1, id).value.Some?
            && state.recoveries[id].commentReceipt == Some(Receipt(state.recoveries[id].issue, api.recoveryComment(1, id).value)))
      ensures r == Success(true) ==> state.recoveries[id].issue == old(state.recoveries[id].issue)
      ensures r == Success(true) && api.recoveryComment(0, id) == Success(None) ==>
        wire.sent.comments == old(wire.sent.comments) + [Commenting(id, |old(known)| + 1)]
      ensures old(Current()) && Calm(api, journal.store.world.comments) && Commentable(old(state.recoveries[id]), id, api) ==>
        r == Success(true)
    {
      hide Replay, Reduce, Intact, Covered, Orderly, Valid, Behind, Current, Readable, NextRow, Flawless;
      KnownRow(id);
      var seen :- api.recoveryComment(0, id);
      if seen.None? {
        if state.recoveries[id].status != Waiting {
          return Success(false);
        }
        var posted := PostRecoveryComment(id, api);
        if !posted {
          return Failure;
        }
      }
      if state.recoveries[id].status == CommentDelivered {
        return Success(true);
      }
      var receipt :- api.recoveryComment(1, id);
      if receipt.None? {
        return Success(false);
      }
      DeliveredRow(state.recoveries[id], id, Receipt(state.recoveries[id].issue, receipt));
      var ok := PersistRow(id, DeliverComment(id, Receipt(state.recoveries[id].issue, receipt)), api.at(12));
      return if ok then Success(true) else Failure;
    }

    /** Makes the close claim durable, and only then issues the PATCH. */
    method IssueClose(id: Identity, floor: map<string, int>, api: Api) returns (ok: bool)
      requires Behind() && Usable(api, journal.store.genuine) && id in state.recoveries && Newest(state, floor, id)
      modifies this`state, this`known, journal`verified, journal.store, wire
      ensures old(journal.store.trace) <= journal.store.trace
      ensures state.recoveries.Keys == old(state.recoveries.Keys)
      ensures Aside(old(state), state)
      ensures ok ==> Current()
      ensures Behind()
      ensures ok ==>
        && wire.sent == old(wire.sent).(closes := old(wire.sent.closes) + [Closing(id, floor, |old(known)| + 1)])
        && old(state.recoveries[id].status) == CommentDelivered
        && state.recoveries[id].status == CloseClaimed && state.recoveries[id].issue == old(state.recoveries[id].issue)
      ensures !ok ==> wire.sent == old(wire.sent) && state == old(state)
      ensures ok ==>
        && state.recoveries[id] == old(state.recoveries[id]).(closeClaim := state.recoveries[id].closeClaim, status := CloseClaimed)
        && state.recoveries[id].closeClaim.Some?
      ensures old(Current()) && Flawless(api.at(13), journal.store.world.comments) && old(state.recoveries[id].status) == CommentDelivered ==> ok
    {
      hide Replay, Reduce, Intact, Covered, Orderly, Within, Readable, NextRow, Newest, Flawless;
      ghost var before, log := state, known;
      CloseRow(state.recoveries[id], id);
      ok := PersistRow(id, ClaimClose(id, PatchClosed(state.recoveries[id].issue)), api.at(13));
      if ok {
        ghost var closing := Closing(id, floor, |known|);
        KnownRow(id);
        StillNewest(before, state, floor, id);
        NotYetClosed(log, epoch, wire.sent, before, id);
        CloseFits(known, journal.store.world, epoch, wire.sent, state, closing);
        wire.sent := wire.sent.(closes := wire.sent.closes + [closing]);
      }
    }

    /** Puts the answer of the PATCH on record, and looks for the closed issue. */
    method AnswerClose(id: Identity, api: Api) returns (r: Result<Answer>)
      requires Behind() && Usable(api, journal.store.genuine) && id in state.recoveries
      modifies this`state, this`known, journal`verified, journal.store
      ensures old(journal.store.trace) <= journal.store.trace
      ensures state.recoveries.Keys == old(state.recoveries.Keys)
      ensures Aside(old(state), state)
      ensures old(Current()) && r.Success? ==> Current()
      ensures Behind()
      ensures r.Success? && r.value.BucketClosed? ==> ClosedFor(state, id, r.value)
      ensures r.Success? && r.value.BucketClosed? ==> api.managed(1, id) == Success(Some(false))
      ensures r.Success? ==> r.value.BucketClosed? || r.value == NeedsReconciliation
      ensures
        && old(Current()) && Calm(api, journal.store.world.comments) && UnderClose(old(state.recoveries[id]))
        && Closable(id, api)
        ==> r == Success(BucketClosed(old(state.recoveries[id].issue)))
    {
      hide Replay, Reduce, Intact, Covered, Orderly, Valid, Behind, NextRow, Current, Readable, Flawless, ClosedFor;
      KnownRow(id);
      var patched :- api.patchClose(id);
      if !patched {
        return Failure;
      }
      CloseRows(state.recoveries[id], id);
      var ok := PersistRow(id, AckClose(id, state.recoveries[id].issue), api.at(14));
      if !ok {
        return Failure;
      }
      r := FinishClose(id, api);
    }

    /** Claims the close and PATCHes once, unless a human has taken the bucket over. */
    method ClosePhase(id: Identity, floor: map<string, int>, api: Api) returns (r: Result<Answer>)
      requires Behind() && Usable(api, journal.store.genuine) && id in state.recoveries && Newest(state, floor, id)
      modifies this`state, this`known, journal`verified, journal.store, wire
      ensures old(journal.store.trace) <= journal.store.trace
      ensures state.recoveries.Keys == old(state.recoveries.Keys)
      ensures Aside(old(state), state)
      ensures old(Current()) && r.Success? ==> Current()
      ensures Behind()
      ensures wire.sent == old(wire.sent)
        || (&& wire.sent == old(wire.sent).(closes := old(wire.sent.closes) + [Closing(id, floor, |old(known)| + 1)])
            && old(state.recoveries[id].status) == CommentDelivered && api.managed(0, id).Success? && api.managed(0, id).value.Some?)
      ensures r.Success? && r.value.BucketClosed? ==> ClosedFor(state, id, r.value)
      ensures r.Success? && r.value.BucketClosed? ==> api.managed(1, id) == Success(Some(false))
      ensures r.Success? ==> r.value.BucketClosed? || r.value == Inapplicable || r.value == NeedsReconciliation
      ensures r == Success(Inapplicable) ==> api.managed(0, id) == Success(None)
      ensures r.Success? && r.value.BucketClosed? ==>
        wire.sent == old(wire.sent).(closes := old(wire.sent.closes) + [Closing(id, floor, |old(known)| + 1)])
      ensures
        && old(Current()) && Calm(api, journal.store.world.comments) && old(state.recoveries[id].status) == CommentDelivered
        && Closable(id, api)
        ==> r == Success(BucketClosed(old(state.recoveries[id].issue)))
    {
      hide Replay, Reduce, Intact, Covered, Orderly, Valid, Behind, Newest, NextRow, Current, Readable, Flawless;
      KnownRow(id);
      var row := state.recoveries[id];
      var managed :- api.managed(0, id);
      if managed.None? {
        var ok := PersistRow(id, Abandon(id, "managed bucket was edited or handed to a human"), api.at(13));
        return if ok then Success(Inapplicable) else Failure;
      }
      var ok := IssueClose(id, floor, api);
      if !ok {
        return Failure;
      }
      r := AnswerClose(id, api);
    }

    /** A close PATCH is done only when the exact closed issue is independently visible. */
    method FinishClose(id: Identity, api: Api) returns (r: Result<Answer>)
      requires Behind() && Usable(api, journal.store.genuine) && id in state.recoveries
      modifies this`state, this`known, journal`verified, journal.store
      ensures old(journal.store.trace) <= journal.store.trace
      ensures state.recoveries.Keys == old(state.recoveries.Keys)
      ensures Aside(old(state), state)
      ensures old(Current()) && r.Success? ==> Current()
      ensures Behind()
      ensures r.Success? && r.value.BucketClosed? ==> ClosedFor(state, id, r.value)
      ensures r.Success? && r.value.BucketClosed? ==> api.managed(1, id) == Success(Some(false))
      ensures r.Success? ==> r.value.BucketClosed? || r.value == NeedsReconciliation
      ensures
        && old(Current()) && Calm(api, journal.store.world.comments) && UnderClose(old(state.recoveries[id]))
        && api.managed(1, id) == Success(Some(false))
        ==> r == Success(BucketClosed(old(state.recoveries[id].issue)))
    {
      hide Replay, Reduce, Intact, Covered, Orderly, Valid, Behind, Current, Readable;
      hide NextRow, Flawless;
      var issue := state.recoveries[id].issue;
      CloseRows(state.recoveries[id], id);
      var visible :- api.managed(1, id);
      if visible != Some(false) {
        return Success(NeedsReconciliation);
      }
      if state.recoveries[id].status == CloseClaimed {
        var ok := PersistRow(id, AckClose(id, issue), api.at(14));
        if !ok {
          return Failure;
        }
        CloseRows(state.recoveries[id], id);
      }
      var ok := PersistRow(id, DeliverClose(id, issue), api.at(15));
      return if ok then Success(BucketClosed(issue)) else Failure;
    }

    /** A recovery that is not being closed yet: its comment first, and then the close, unless a newer failure owns the bucket. */
    method CarryForward(id: Identity, floor: map<string, int>, api: Api) returns (r: Result<Answer>)
      requires Behind() && Usable(api, journal.store.genuine) && id in state.recoveries
      modifies this`state, this`known, journal`verified, journal.store, wire
      ensures old(journal.store.trace) <= journal.store.trace
      ensures state.recoveries.Keys == old(state.recoveries.Keys)
      ensures Aside(old(state), state)
      ensures old(Current()) && r.Success? ==> Current()
      ensures Behind()
      ensures Courteous(old(wire.sent), wire.sent, id)
      ensures r.Success? && r.value.BucketClosed? ==> ClosedFor(state, id, r.value) && api.managed(1, id) == Success(Some(false))
      ensures r.Success? && r.value == Superseded ==> id in state.recoveries && state.recoveries[id].status == Stale
      ensures r == Success(Superseded) ==> !Newest(old(state), floor, id)
      ensures r == Success(Inapplicable) ==> Newest(old(state), floor, id) && api.managed(0, id) == Success(None)
      ensures r.Success? && r.value.BucketClosed? ==> Newest(old(state), floor, id) && |wire.sent.closes| == |old(wire.sent.closes)| + 1
      ensures r.Success? && r.value.BucketClosed? && old(state.recoveries[id].status) == Waiting && api.recoveryComment(0, id) == Success(None) ==>
        |wire.sent.comments| == |old(wire.sent.comments)| + 1
      ensures
        && old(Current()) && Calm(api, journal.store.world.comments) && Newest(old(state), floor, id) && Closable(id, api)
        && (old(state.recoveries[id].status) == CommentDelivered || Commentable(old(state.recoveries[id]), id, api))
        ==> r == Success(BucketClosed(old(state.recoveries[id].issue)))
      ensures
        && old(Current()) && Calm(api, journal.store.world.comments) && !Newest(old(state), floor, id)
        && (old(state.recoveries[id].status) in {Waiting, CommentDelivered} || Commentable(old(state.recoveries[id]), id, api))
        ==> r == Success(Superseded)
    {
      hide Replay, Reduce, Intact, Covered, Orderly, Valid, Behind, Current, Newest, NextRow, ClosedFor, Calm, Commentable, Closable;
      var row := state.recoveries[id];
      ghost var before := state;
      var stale := !Newest(state, floor, id);
      if stale && (row.status == Waiting || row.status == CommentDelivered) {
        r := Supersede(id, api);
        return;
      }
      if row.status != CommentDelivered {
        var delivered :- CommentPhase(id, api);
        if !delivered {
          return Success(NeedsReconciliation);
        }
      }
      if stale {
        r := Supersede(id, api);
        return;
      }
      assert Newest(state, floor, id) by { StillNewest(before, state, floor, id); }
      r := ClosePhase(id, floor, api);
    }

    /** Carries one recovery as far as the evidence allows: comment, receipt, close, receipt. */
    method ReconcileRecovery(id: Identity, floor: map<string, int>, api: Api) returns (r: Result<Answer>)
      requires Behind() && Usable(api, journal.store.genuine) && id in state.recoveries
      modifies this`state, this`known, journal`verified, journal.store, wire
      ensures old(journal.store.trace) <= journal.store.trace
      ensures state.recoveries.Keys == old(state.recoveries.Keys)
      ensures Aside(old(state), state)
      ensures old(Current()) && r.Success? ==> Current()
      ensures Behind()
      ensures Courteous(old(wire.sent), wire.sent, id)
      ensures r.Success? && r.value.BucketClosed? ==> ClosedFor(state, id, r.value)
      ensures r.Success? && r.value.BucketClosed? ==>
        old(state.recoveries[id].status == Closed) || api.managed(1, id) == Success(Some(false))
      ensures r.Success? && r.value == Superseded ==> id in state.recoveries && state.recoveries[id].status == Stale
      ensures r == Success(Superseded) ==> old(state.recoveries[id].status) == Stale || !Newest(old(state), floor, id)
      ensures r == Success(Inapplicable) ==>
        old(state.recoveries[id].status) == NotApplicable || (Newest(old(state), floor, id) && api.managed(0, id) == Success(None))
      ensures r.Success? && r.value.BucketClosed? && BeforeClose(old(state.recoveries[id].status)) ==>
        Newest(old(state), floor, id) && |wire.sent.closes| == |old(wire.sent.closes)| + 1
      ensures r.Success? && r.value.BucketClosed? && old(state.recoveries[id].status) == Waiting && api.recoveryComment(0, id) == Success(None) ==>
        |wire.sent.comments| == |old(wire.sent.comments)| + 1
      ensures !BeforeClose(old(state.recoveries[id].status)) ==> wire.sent == old(wire.sent)
      ensures
        && old(Current()) && Calm(api, journal.store.world.comments)
        && (if UnderClose(old(state.recoveries[id])) then api.managed(1, id) == Success(Some(false))
            else
              && Newest(old(state), floor, id) && Closable(id, api)
              && (old(state.recoveries[id].status) == CommentDelivered || Commentable(old(state.recoveries[id]), id, api)))
        ==> r == Success(BucketClosed(old(state.recoveries[id].issue)))
    {
      hide Replay, Reduce, Intact, Covered, Orderly, Valid, Behind, Current, Newest, NextRow, Calm, Closable;
      KnownRow(id);
      var row := state.recoveries[id];
      match row.status {
        case Closed => return Success(BucketClosed(row.issue));
        case Stale => return Success(Superseded);
        case NotApplicable => return Success(Inapplicable);
        case CloseClaimed =>
          r := FinishClose(id, api);
          return;
        case CloseAcknowledged =>
          r := FinishClose(id, api);
          return;
        case _ =>
      }
      r := CarryForward(id, floor, api);
    }

    /** Gives a recovery up to a newer authenticated failure. */
    method Supersede(id: Identity, api: Api) returns (r: Result<Answer>)
      requires Behind() && Usable(api, journal.store.genuine)
      modifies this`state, this`known, journal`verified, journal.store
      ensures old(journal.store.trace) <= journal.store.trace
      ensures state.recoveries.Keys == old(state.recoveries.Keys)
      ensures Aside(old(state), state)
      ensures old(Current()) && r.Success? ==> Current()
      ensures Behind()
      ensures r.Success? ==> r.value == Superseded && id in state.recoveries && state.recoveries[id].status == Stale
      ensures
        && old(Current()) && Calm(api, journal.store.world.comments) && id in old(state.recoveries)
        && BeforeClose(old(state.recoveries[id].status))
        ==> r.Success?
    {
      hide Replay, Reduce, Intact, Covered, Orderly, Valid, Behind, Current, Readable;
      var ok := PersistRow(id, Outdate(id, "newer authenticated failure already owns this bucket"), api.at(16));
      return if ok then Success(Superseded) else Failure;
    }
  
    /** The first delivered report of the managed bucket with this key. */
    method FindBucket(key: string) returns (r: Option<DeliveryId>)
      requires KeysKept(state)
      ensures r.Some? ==> r.value in state.deliveries && OwnsBucket(state.deliveries[r.value], key)
      ensures r.None? ==> forall id <- state.deliveries :: !OwnsBucket(state.deliveries[id], key)
    {
      for i := 0 to |state.queued|
        invariant forall j | 0 <= j < i :: !OwnsBucket(state.deliveries[state.queued[j]], key)
      {
        if OwnsBucket(state.deliveries[state.queued[i]], key) {
          return Some(state.queued[i]);
        }
      }
      return None;
    }

    /** Makes the reservation durable: for the issue and body of a delivered report of the bucket. */
    method Reserve(recovery: Recovery, bucket: DeliveryId, api: Api) returns (ok: bool)
      requires Behind() && Usable(api, journal.store.genuine) && recovery.identity !in state.recoveries
      requires bucket in state.deliveries && OwnsBucket(state.deliveries[bucket], recovery.identity.key)
      modifies this`state, this`known, journal`verified, journal.store
      ensures old(journal.store.trace) <= journal.store.trace
      ensures Behind()
      ensures ok ==>
        && Current() && Aside(old(state), state) && recovery.identity in state.recoveries
        && old(state.deliveries[bucket].receipt.Some?)
        && state.recoveries[recovery.identity]
           == Row(recovery, old(state.deliveries[bucket].receipt.value.issue), old(state.deliveries[bucket].payload.issueBody),
                  Waiting, None, None, None, None)
      ensures !ok ==> state == old(state)
      ensures
        && old(Current()) && Calm(api, journal.store.world.comments)
        && WellFormed(recovery.identity) && old(state.deliveries[bucket].payload.issueBody) != ""
        ==> ok
    {
      hide Replay, Reduce, Intact, Covered, Orderly, Behind, Valid, Newest, NextRow, Readable, Flawless, Transition, Trusty, Faithful;
      hide Current, WellFormed;
      KnownEvidence(bucket);
      var d := state.deliveries[bucket];
      var data := QueueRecovery(recovery, d.receipt.value.issue, d.payload.issueBody);
      ghost var before := state;
      ReservationMeans(state, data, bucket);
      ok := Persist(data, api.at(20));
      if ok {
        RowAppears(before, data, state);
      }
    }

    /** Reserves the recovery durably; a bucket that is no longer eligible ends it at once. */
    method ReserveRecovery(recovery: Recovery, api: Api) returns (r: Result<Option<Answer>>)
      requires Behind() && Usable(api, journal.store.genuine) && recovery.identity !in state.recoveries
      modifies this`state, this`known, journal`verified, journal.store
      ensures old(journal.store.trace) <= journal.store.trace
      ensures Behind()
      ensures r == Success(None) ==> recovery.identity in state.recoveries
      ensures r == Success(None) ==>
        && Current() && state.latest == old(state.latest) && !Overtaken(old(state), recovery.identity)
        && state.recoveries[recovery.identity].recovery == recovery && state.recoveries[recovery.identity].status == Waiting
        && Bucket(old(state), recovery.identity.key, state.recoveries[recovery.identity].issue)
      ensures r.Success? && r.value.Some? ==> r.value == Some(Superseded) || r.value == Some(Inapplicable)
      ensures r.Success? && Overtaken(old(state), recovery.identity) ==> r.value == Some(Superseded) && state == old(state)
      ensures r == Success(Some(Superseded)) ==> Overtaken(old(state), recovery.identity)
      ensures r == Success(Some(Inapplicable)) ==>
        || (forall id <- old(state.deliveries) :: !OwnsBucket(old(state).deliveries[id], recovery.identity.key))
        || (api.managed(2, recovery.identity).Success? && api.managed(2, recovery.identity) != Success(Some(true)))
      ensures old(Current()) && Calm(api, journal.store.world.comments) && Reservable(old(state), recovery, api) ==> r == Success(None)
    {
      hide Replay, Reduce, Intact, Covered, Orderly, Behind, Valid, Current, KeysKept, RowsSound, Newest, NextRow, RowSound, Calm;
      hide Readable, Flawless, Transition, Trusty, Faithful;
      var id := recovery.identity;
      if id.key in state.latest && state.latest[id.key].order >= id.order {
        return Success(Some(Superseded));
      }
      KnownKeys();
      var bucket := FindBucket(id.key);
      if bucket.None? {
        return Success(Some(Inapplicable));
      }
      var managed :- api.managed(2, id);
      var ok := Reserve(recovery, bucket.value, api);
      if !ok {
        return Failure;
      }
      if managed != Some(true) {
        ok := PersistRow(id, Abandon(id, "managed bucket was edited, handed to a human, closed, or is no longer eligible"), api.at(21));
        return if ok then Success(Some(Inapplicable)) else Failure;
      }
      return Success(None);
    }

    /** Closes a bucket after an authenticated success, as far as the evidence allows. */
    method RecoverSuccess(recovery: Recovery, floor: map<string, int>, api: Api) returns (r: Result<Answer>)
      requires Valid() && Usable(api, journal.store.genuine)
      modifies this, journal`verified, journal.store, wire
      ensures old(journal.store.trace) <= journal.store.trace
      ensures Valid()
      ensures r.Success? ==> Behind()
      ensures Courteous(old(wire.sent), wire.sent, recovery.identity)
      ensures
        var found := Replay(NewState(epoch), old(Loaded(journal.store.world)));
        found.Success?
        && (r == Success(Superseded) ==> GivenUp(found.value, floor, recovery.identity))
      ensures
        var found := Replay(NewState(epoch), old(Loaded(journal.store.world)));
        && old(Readable(journal.store.world)) && found.Success? && recovery.identity !in found.value.recoveries
        && Swift(api.load(0), journal.store.world.comments, persistVerified) && Calm(api, journal.store.world.comments)
        && Reservable(found.value, recovery, api) && Newest(found.value, floor, recovery.identity)
        && Closable(recovery.identity, api) && CommentLands(recovery.identity, api)
        ==> && r.Success? && r.value.BucketClosed? && Bucket(found.value, recovery.identity.key, r.value.issue)
            && |wire.sent.comments| == |old(wire.sent.comments)| + 1 && |wire.sent.closes| == |old(wire.sent.closes)| + 1
    {
      hide Replay, Reduce, Intact, Covered, Orderly, Valid, Newest, Calm, Closable, Swift, Readable, Reservable, RowSound, Commentable, Aside, GivenUp;
      FoundReplays();
      var ok := Load(api.load(0));
      if !ok {
        return Failure;
      }
      CurrentReplays();
      ghost var found := state;
      if recovery.identity !in state.recoveries {
        var ended :- ReserveRecovery(recovery, api);
        if ended.Some? {
          NotNewest(found, floor, recovery.identity);
          return Success(ended.value);
        }
        if Newest(found, floor, recovery.identity) {
          StillNewest(found, state, floor, recovery.identity);
        }
        if Newest(state, floor, recovery.identity) {
          StillNewest(state, found, floor, recovery.identity);
        }
      }
      ghost var row := state.recoveries[recovery.identity];
      NotNewest(found, floor, recovery.identity);
      if CommentLands(recovery.identity, api) && row.status == Waiting {
        LandsIsCommentable(row, recovery.identity, api);
      }
      r := ReconcileRecovery(recovery.identity, floor, api);
    }

    /** For every bucket key with an unfinished recovery, the one with the greatest causal order. */
    method SelectActive() returns (keys: seq<string>, chosen: map<string, Identity>)
      requires KeysKept(state) && RowsSound(state)
      ensures chosen.Keys == set key | key in keys
      ensures forall key <- chosen :: Leads(state, state.recovering, chosen[key]) && chosen[key].key == key
      ensures forall id <- state.recoveries | !Terminal(state.recoveries[id].status) :: id.key in chosen
    {
      hide Leads, RowSound, Terminal;
      keys, chosen := [], map[];
      for i := 0 to |state.recovering|
        invariant chosen.Keys == set key | key in keys
        invariant Selected(state, state.recovering[..i], chosen)
      {
        var id := state.recovering[i];
        assert state.recovering[..i + 1] == state.recovering[..i] + [id];
        SelectOneMore(state, state.recovering[..i], chosen, id);
        if !Terminal(state.recoveries[id].status) {
          if id.key !in chosen {
            keys := keys + [id.key];
            chosen := chosen[id.key := id];
          } else if id.order > chosen[id.key].order {
            chosen := chosen[id.key := id];
          }
        }
      }
      assert state.recovering[..|state.recovering|] == state.recovering;
    }

    /** Reconciles the selected recoveries in turn; `false` means one needs an operator. */
    method ReconcileActive(keys: seq<string>, chosen: map<string, Identity>, floor: map<string, int>, api: Api) returns (r: Result<bool>)
      requires Behind() && Usable(api, journal.store.genuine)
      requires forall key <- keys :: key in chosen && chosen[key] in state.recoveries
      modifies this`state, this`known, journal`verified, journal.store, wire
      ensures old(journal.store.trace) <= journal.store.trace
      ensures Behind()
      ensures wire.sent.posts == old(wire.sent.posts) && Extends(old(wire.sent), wire.sent)
      ensures Aside(old(state), state)
      ensures old(Current()) && r.Success? ==> Current()
      ensures keys == [] ==> r == Success(true) && state == old(state) && journal.store.world == old(journal.store.world)
    {
      hide Replay, Reduce, Intact, Covered, Orderly, Valid, Behind;
      for i := 0 to |keys|
        invariant Behind()
        invariant old(journal.store.trace) <= journal.store.trace
        invariant state.recoveries.Keys == old(state.recoveries.Keys)
        invariant Aside(old(state), state)
        invariant old(Current()) ==> Current()
        invariant i == 0 ==> state == old(state) && journal.store.world == old(journal.store.world)
        invariant wire.sent.posts == old(wire.sent.posts) && Extends(old(wire.sent), wire.sent)
      {
        assert keys[i] in keys;
        var answer :- ReconcileRecovery(chosen[keys[i]], floor, api);
        if answer == NeedsReconciliation {
          return Success(false);
        }
      }
      return Success(true);
    }

    /** Attempts the first report that is still queued. */
    method ResumeFirst(calls: DeliveryId -> seq<ProxyCall>, raises: bool, api: Api) returns (r: Result<Answer>)
      requires Current() && AllResolved(state) && KeysKept(state) && Usable(api, journal.store.genuine)
      requires forall id: DeliveryId, c, n | c in calls(id) :: Trusty(c.at(n), journal.store.genuine)
      modifies this, journal`verified, journal.store, wire
      ensures old(journal.store.trace) <= journal.store.trace
      ensures Valid()
      ensures wire.sent.posts == old(wire.sent.posts) || exists id :: AddsOne(old(wire.sent.posts), wire.sent.posts, id)
      ensures Extends(old(wire.sent), wire.sent)
      ensures r.Success? ==> Drained(old(state), r.value)
      ensures Stuck(old(state)) ==> wire.sent == old(wire.sent)
      ensures r == Success(StaleReport) ==> Current() && state == old(state)
      ensures forall i: nat | FirstQueued(old(state), i) ::
        var id := old(state).queued[i];
        Prospers(old(state), old(state).deliveries[id].payload, calls(id), raises, api, journal.store.world.comments, persistVerified)
        ==> r == Success(Arrived(ReceiptOf(calls(id))))
    {
      hide Replay, Reduce, Intact, Covered, Orderly, AllResolved, Prospers, Swift, Flawless;
      hide Valid, Within, Outrun, Drained;
      CurrentReplays();
      for i := 0 to |state.queued|
        invariant Current() && state == old(state) && wire.sent == old(wire.sent)
        invariant journal.store.world == old(journal.store.world) && journal.store.trace == old(journal.store.trace)
        invariant forall j | 0 <= j < i :: !QueuedAt(state, j)
      {
        var d := state.deliveries[state.queued[i]];
        if d.status == Queued {
          FirstIsUnique(state, i);
          r := Deliver(d.payload, calls(state.queued[i]), raises, api);
          return;
        }
      }
      NothingIsFirst(state);
      return Success(Idle);
    }

    /** Resumes durable work once: unsettled writes first, then recoveries, then the first queued report. */
    method DrainOnce(floor: map<string, int>, api: Api, later: Api, calls: DeliveryId -> seq<ProxyCall>, raises: bool) returns (r: Result<Answer>)
      requires Valid() && Usable(api, journal.store.genuine) && Usable(later, journal.store.genuine)
      requires forall id: DeliveryId, c, n | c in calls(id) :: Trusty(c.at(n), journal.store.genuine)
      modifies this, journal`verified, journal.store, wire
      ensures old(journal.store.trace) <= journal.store.trace
      ensures Valid()
      ensures wire.sent.posts == old(wire.sent.posts) || exists id :: AddsOne(old(wire.sent.posts), wire.sent.posts, id)
      ensures Extends(old(wire.sent), wire.sent)
      ensures
        var found := Replay(NewState(epoch), old(Loaded(journal.store.world)));
        && found.Success?
        && (r.Success? && r.value != NeedsReconciliation ==> Drained(found.value, r.value))
        && (Stuck(found.value) ==> wire.sent.posts == old(wire.sent.posts))
        && (r == Success(StaleReport) ==> Current() && Settles(found.value, state))
      ensures
        var found := Replay(NewState(epoch), old(Loaded(journal.store.world)));
        && old(Readable(journal.store.world)) && found.Success? && AllResolved(found.value) && AllTerminal(found.value)
        && Swift(api.load(1), journal.store.world.comments, persistVerified)
        ==> forall i: nat | FirstQueued(found.value, i) ::
              var id := found.value.queued[i];
              Prospers(found.value, found.value.deliveries[id].payload, calls(id), raises, later, journal.store.world.comments, persistVerified)
              ==> r == Success(Arrived(ReceiptOf(calls(id))))
    {
      hide Replay, Reduce, Intact, Covered, Orderly, AllResolved, Swift, Flawless, Readable, Settles, Drained, Stuck, Aside, Prospers, AllTerminal, FirstQueued;
      hide Valid, Within;
      FoundReplays();
      ghost var found := Replay(NewState(epoch), Loaded(journal.store.world)).value;
      var pending :- Recover(api);
      if pending != Ready {
        return Success(pending);
      }
      ghost var recovered := state;
      KnownKeys();
      var keys, chosen := SelectActive();
      LeadersAreKnown(state, keys, chosen);
      if AllTerminal(state) {
        NoLeaders(state, keys, chosen);
      }
      var carried :- ReconcileActive(keys, chosen, floor, api);
      QueueStands(found, recovered, state);
      if !carried {
        return Success(NeedsReconciliation);
      }
      KnownKeys();
      r := ResumeFirst(calls, raises, later);
    }
  }

  lemma SelectOneMore(s: State, among: seq<Identity>, chosen: map<string, Identity>, id: Identity)
    requires Selected(s, among, chosen) && id in s.recoveries
    ensures Selected(s, among + [id],
                     if !Terminal(s.recoveries[id].status) && (id.key !in chosen || id.order > chosen[id.key].order)
                     then chosen[id.key := id] else chosen)
  {
    hide Terminal;
    var more := among + [id];
    assert forall x :: x in more <==> x in among || x == id;
  }

  lemma NoLeaders(s: State, keys: seq<string>, chosen: map<string, Identity>)
    requires chosen.Keys == set key | key in keys
    requires AllTerminal(s) && forall key <- chosen :: Leads(s, s.recovering, chosen[key])
    ensures keys == []
  {
    SomeKey(keys, chosen);
  }

  lemma SomeKey(keys: seq<string>, chosen: map<string, Identity>)
    requires chosen.Keys == set key | key in keys
    ensures keys != [] ==> exists key :: key in chosen
  {
    if keys != [] {
      assert keys[0] in chosen.Keys;
    }
  }

  lemma LeadersAreKnown(s: State, keys: seq<string>, chosen: map<string, Identity>)
    requires chosen.Keys == set key | key in keys
    requires forall key <- chosen :: Leads(s, s.recovering, chosen[key])
    ensures forall key <- keys :: key in chosen && chosen[key] in s.recoveries
  {
    forall key | key in keys ensures key in chosen && chosen[key] in s.recoveries {
      assert key in chosen.Keys;
    }
  }

  lemma RowAppears(s: State, data: Data, t: State)
    requires data.QueueRecovery? && data.recovery.identity !in s.recoveries
    requires Reduce(s, EventOf(s, data)) == Success(t) && EventOf(s, data).id !in s.events
    ensures t.recoveries == s.recoveries[data.recovery.identity :=
      Row(data.recovery, data.issue, data.bucketBody, Waiting, None, None, None, None)]
    ensures Aside(s, t)
  {
    hide KnownBucket;
  }

  lemma ReservationMeans(s: State, data: Data, bucket: DeliveryId)
    requires data.QueueRecovery? && data.recovery.identity !in s.recoveries
    requires bucket in s.deliveries && OwnsBucket(s.deliveries[bucket], data.recovery.identity.key)
    requires s.deliveries[bucket].receipt.Some? && Positive(s.deliveries[bucket].receipt.value)
    requires data.issue == s.deliveries[bucket].receipt.value.issue && data.bucketBody == s.deliveries[bucket].payload.issueBody
    ensures WellFormed(data.recovery.identity) && data.bucketBody != "" ==> Transition(s, data).Success?
  {
    assert IsBucket(s.deliveries[bucket], data.recovery.identity.key, data.issue, data.bucketBody);
  }

  lemma NotNewest(s: State, floor: map<string, int>, id: Identity)
    ensures GivenUp(s, floor, id) <==> (id in s.recoveries && s.recoveries[id].status == Stale) || !Newest(s, floor, id)
    ensures Overtaken(s, id) ==> GivenUp(s, floor, id)
  {
  }

  lemma LandsIsCommentable(row: Row, id: Identity, api: Api)
    requires row.status == Waiting && CommentLands(id, api)
    ensures Commentable(row, id, api)
  {
  }

  lemma StillNewest(s: State, t: State, floor: map<string, int>, id: Identity)
    requires t.latest == s.latest && Newest(s, floor, id)
    ensures Newest(t, floor, id)
  {
  }

  lemma RowTransition(s: State, data: Data, id: Identity)
    requires Recovering(data) && !data.QueueRecovery? && data.id == id
    ensures id in s.recoveries && NextRow(s.recoveries[id], data).Success? ==> Transition(s, data).Success?
  {
    hide NextRow;
  }

  lemma RowMoves(s: State, data: Data, id: Identity, t: State)
    requires Recovering(data) && !data.QueueRecovery? && data.id == id
    requires Reduce(s, EventOf(s, data)) == Success(t) && EventOf(s, data).id !in s.events
    ensures id in s.recoveries && NextRow(s.recoveries[id], data).Success?
    ensures t.recoveries == s.recoveries[id := NextRow(s.recoveries[id], data).value]
    ensures Aside(s, t)
  {
    hide Transition, NextRow;
    ReduceIs(s, data, t);
    RowsKeepReports(s, data);
  }

  lemma CommentRow(row: Row, id: Identity)
    ensures var r := NextRow(row, ClaimComment(id, PostComment(row.issue, row.recovery.commentBody)));
      && (r.Success? <==> row.status == Waiting)
      && (r.Success? ==>
            r.value == row.(commentClaim := Some(PostComment(row.issue, row.recovery.commentBody)), status := CommentClaimed))
  {
  }

  lemma AckRow(row: Row, id: Identity, receipt: Receipt)
    ensures var r := NextRow(row, AckComment(id, receipt));
      && (r.Success? <==> CommentReceiptFits(row, receipt))
      && (r.Success? ==> r.value == row.(commentReceipt := Some(receipt), status := CommentAcknowledged))
  {
  }

  lemma DeliveredRow(row: Row, id: Identity, receipt: Receipt)
    ensures var r := NextRow(row, DeliverComment(id, receipt));
      && (r.Success? <==> CommentReceiptFits(row, receipt))
      && (r.Success? ==> r.value == row.(commentReceipt := Some(receipt), status := CommentDelivered))
  {
  }

  /** What acknowledging and confirming a close come to, on a row whose close was claimed for its own issue. */
  lemma CloseRows(row: Row, id: Identity)
    ensures var r := NextRow(row, AckClose(id, row.issue));
      && (r.Success? ==> r.value == row.(closeReceipt := Some(row.issue), status := CloseAcknowledged))
      && (UnderClose(row) ==> r.Success?)
    ensures var r := NextRow(row, DeliverClose(id, row.issue));
      && (r.Success? ==> r.value == row.(closeReceipt := Some(row.issue), status := Closed))
      && (UnderClose(row) ==> r.Success?)
  {
  }

  lemma CloseRow(row: Row, id: Identity)
    ensures var r := NextRow(row, ClaimClose(id, PatchClosed(row.issue)));
      && (r.Success? <==> row.status == CommentDelivered)
      && (r.Success? ==> r.value == row.(closeClaim := Some(PatchClosed(row.issue)), status := CloseClaimed))
  {
  }

  lemma {:induction false} NotYetCommented(log: Log, epoch: string, sent: Sent, s: State, id: Identity)
    requires Covered(log, epoch, sent) && Replay(NewState(epoch), log) == Success(s) && !CommentSpent(s, id)
    ensures forall m <- sent.comments :: m.id != id
  {
    hide Replay;
  }

  lemma {:induction false} NotYetClosed(log: Log, epoch: string, sent: Sent, s: State, id: Identity)
    requires Covered(log, epoch, sent) && Replay(NewState(epoch), log) == Success(s) && !ClosingSpent(s, id)
    ensures forall c <- sent.closes :: c.id != id
  {
    hide Replay;
  }

  lemma {:induction false} CommentFits(log: Log, w: World<Data>, epoch: string, sent: Sent, s: State, id: Identity)
    requires Covered(log, epoch, sent) && Intact(w, epoch, sent) && Committed(w) == log
    requires Replay(NewState(epoch), log) == Success(s) && CommentSpent(s, id) && forall m <- sent.comments :: m.id != id
    requires log != [] && Last(log).data.ClaimComment? && Last(log).data.id == id
    ensures var now := sent.(comments := sent.comments + [Commenting(id, |log|)]); Covered(log, epoch, now) && Intact(w, epoch, now)
  {
    hide Replay, Claims, Issued, Patched;
  }

  lemma {:induction false} CloseFits(log: Log, w: World<Data>, epoch: string, sent: Sent, s: State, c: Closing)
    requires Covered(log, epoch, sent) && Intact(w, epoch, sent) && Committed(w) == log
    requires Replay(NewState(epoch), log) == Success(s) && Earned(s, c)
    requires log != [] && Last(log).data.ClaimClose? && Last(log).data.id == c.id && c.at == |log|
    requires forall d <- sent.closes :: d.id != c.id
    ensures var now := sent.(closes := sent.closes + [c]); Covered(log, epoch, now) && Intact(w, epoch, now)
  {
    hide Replay, Claims, Issued, Commented;
    assert log[..|log|] == log;
    assert Patched(log, epoch, c);
  }

  lemma ResolvedIsQuiet(s: State, id: DeliveryId)
    requires AllResolved(s)
    ensures Quiet(s, id)
  {
  }

  lemma KnownIsUnique(known: Log, w: World<Data>)
    requires Anchored(w) && known <= Committed(w)
    ensures UniqueIds(known)
  {
    LoadedIsUnique(w);
    UniquePart(known, Loaded(w));
  }

  lemma DeliverSettles(s: State, data: Data, id: DeliveryId, t: State)
    requires data.DeliverReport? && data.delivery == id
    requires Reduce(s, EventOf(s, data)) == Success(t) && EventOf(s, data).id !in s.events
    ensures id in t.deliveries && t.deliveries[id].status == Delivered && t.deliveries[id].receipt == Some(data.receipt)
    ensures t.queued == s.queued && t.latest == s.latest
    ensures id in s.deliveries && t.buckets == s.buckets[s.deliveries[id].payload.key := data.receipt.issue]
  {
  }

  lemma SettleMeans(s: State, id: DeliveryId, r: Receipt)
    ensures Transition(s, DeliverReport(id, r)).Success?
      <==> id in s.deliveries && Open(s.deliveries[id].status) && Matches(s, s.deliveries[id], r)
  {
    hide Matches;
  }

  lemma FirstIsUnique(s: State, i: nat)
    requires FirstQueued(s, i)
    ensures forall j: nat | FirstQueued(s, j) :: j == i
    ensures Stuck(s) <==> Outrun(s, s.deliveries[s.queued[i]].payload)
    ensures forall answer :: Drained(s, answer) <==>
      if Outrun(s, s.deliveries[s.queued[i]].payload) then answer == StaleReport else answer.Arrived?
  {
    hide Outrun;
    assert QueuedAt(s, i);
  }

  lemma NothingIsFirst(s: State)
    requires NothingQueued(s)
    ensures Drained(s, Idle)
  {
  }

  /** Settling writes and carrying recoveries forward changes nothing about what is queued. */
  lemma QueueStands(s: State, t: State, u: State)
    requires Settles(s, t) && Aside(t, u)
    ensures Settles(s, u) && (AllResolved(t) ==> AllResolved(u))
    ensures forall answer :: Drained(s, answer) <==> Drained(u, answer)
    ensures Stuck(s) <==> Stuck(u)
  {
    forall i | 0 <= i < |s.queued|
      ensures QueuedAt(s, i) <==> QueuedAt(u, i)
      ensures QueuedAt(s, i) ==> u.deliveries[u.queued[i]] == s.deliveries[s.queued[i]]
    {
    }
    forall i: nat ensures FirstQueued(s, i) <==> FirstQueued(u, i) {
    }
  }

  lemma NothingScanned(s: State)
    requires KeysKept(s)
    ensures Scanned(s, s, 0)
  {
  }

  lemma FirstVisible(s: State, api: Api)
    ensures Visible(s, api) ==> StillVisible(s, s, api)
  {
  }

  lemma VisibleMatches(s: State, t: State, api: Api, id: DeliveryId)
    requires Visible(s, api) && StillVisible(s, t, api)
    requires id in s.deliveries && !Resolved(s.deliveries[id].status) && id in t.deliveries && t.deliveries[id] == s.deliveries[id]
    ensures s.deliveries[id].status != Refused && Open(t.deliveries[id].status)
    ensures api.observed(0, id).Success? && api.observed(0, id).value.Some?
    ensures Matches(t, t.deliveries[id], api.observed(0, id).value.value)
  {
  }

  lemma VisibleOn(s: State, t: State, u: State, api: Api, id: DeliveryId)
    requires Visible(s, api) && StillVisible(s, t, api)
    requires id in s.deliveries && !Resolved(s.deliveries[id].status)
    requires u.buckets == t.buckets[s.deliveries[id].payload.key := api.observed(0, id).value.value.issue]
    ensures StillVisible(s, u, api)
  {
    hide Matches;
  }

  lemma ScanKnows(s: State, t: State, i: nat)
    requires KeysKept(s) && i < |s.queued| && Scanned(s, t, i)
    ensures Settles(s, t)
    ensures s.queued[i] in s.deliveries && s.queued[i] in t.deliveries && t.deliveries[s.queued[i]] == s.deliveries[s.queued[i]]
    ensures (AllResolved(s) ==> Resolved(s.deliveries[s.queued[i]].status))
  {
  }

  lemma ScanOneMore(s: State, t: State, u: State, i: nat)
    requires KeysKept(s) && i < |s.queued| && Scanned(s, t, i)
    requires var id := s.queued[i];
      || (Resolved(s.deliveries[id].status) && u == t)
      || (&& !Resolved(s.deliveries[id].status)
          && u.queued == t.queued && u.latest == t.latest && u.deliveries.Keys == t.deliveries.Keys
          && u.deliveries[id].status == Delivered
          && forall other <- u.deliveries | other != id :: u.deliveries[other] == t.deliveries[other])
    ensures Scanned(s, u, i + 1)
  {
    forall j | 0 <= j < |s.queued| && j != i ensures s.queued[j] != s.queued[i] && s.queued[j] in t.deliveries {
    }
  }

  lemma EverythingScanned(s: State, t: State)
    requires KeysKept(s) && Scanned(s, t, |s.queued|)
    ensures AllResolved(t) && Settles(s, t)
  {
    forall id | id in t.deliveries ensures Resolved(t.deliveries[id].status) {
      var j :| 0 <= j < |s.queued| && s.queued[j] == id;
    }
  }

  lemma StaysOutOfQueue(s: State, data: Data, id: DeliveryId, t: State)
    requires (data.RefuseReport? || data.AckReport?) && data.delivery == id
    requires Reduce(s, EventOf(s, data)) == Success(t) && EventOf(s, data).id !in s.events
    ensures id in t.deliveries && t.deliveries[id].status != Queued
  {
    hide Matches;
  }

  lemma ClearMeans(s: State, data: Data)
    requires data.ClearClaim?
    ensures Transition(s, data).Success?
      <==> data.delivery in s.deliveries && s.deliveries[data.delivery].status == Claimed
           && s.deliveries[data.delivery].claim == Some(data.claim) && data.why != ""
  {
  }

  lemma ClearReturns(s: State, data: Data, id: DeliveryId, t: State)
    requires data.ClearClaim? && data.delivery == id
    requires Reduce(s, EventOf(s, data)) == Success(t) && EventOf(s, data).id !in s.events
    ensures id in t.deliveries && t.deliveries[id].status == Queued && t.deliveries[id].claim.None?
  {
  }

  lemma ReduceIs(s: State, data: Data, t: State)
    requires Reduce(s, EventOf(s, data)) == Success(t) && EventOf(s, data).id !in s.events
    ensures Transition(s, data).Success? && t == Stamp(Transition(s, data).value, EventOf(s, data))
  {
    hide Transition;
  }

  lemma OnlyTouches(s: State, data: Data, id: DeliveryId, t: State)
    requires !Recovering(data) && data.delivery == id && id in s.deliveries
    requires Reduce(s, EventOf(s, data)) == Success(t) && EventOf(s, data).id !in s.events
    ensures t.deliveries.Keys == s.deliveries.Keys
    ensures forall other <- s.deliveries | other != id :: t.deliveries[other] == s.deliveries[other]
    ensures Quiet(s, id) ==> Quiet(t, id)
  {
    hide Transition;
    ReduceIs(s, data, t);
    if !data.QueueReport? {
      OnlyQueueAddsKeys(s, data);
    } else {
      ReportsStand(s, data);
      QueueKnown(s, data.delivery, data.payload);
      QueueIs(s, data);
    }
    forall other | other in s.deliveries && other != id ensures t.deliveries[other] == s.deliveries[other] {
      OthersUntouched(s, data, other);
    }
  }

  lemma QueueIs(s: State, data: Data)
    requires data.QueueReport?
    ensures Transition(s, data) == Queue(s, data.delivery, data.payload)
  {
  }

  lemma QueueKnown(s: State, id: DeliveryId, p: Payload)
    ensures id in s.deliveries && Queue(s, id, p).Success? ==> Queue(s, id, p).value.deliveries == s.deliveries
  {
    hide OrderAdmits;
  }

  lemma ClaimTakesOne(s: State, id: DeliveryId, operation: Operation, t: State)
    requires Reduce(s, EventOf(s, ClaimReport(id, operation))) == Success(t) && EventOf(s, ClaimReport(id, operation)).id !in s.events
    ensures id in s.deliveries && s.deliveries[id].status == Queued
    ensures id in t.deliveries && t.deliveries[id].status == Claimed && t.deliveries.Keys == s.deliveries.Keys
    ensures forall other <- s.deliveries | other != id :: t.deliveries[other] == s.deliveries[other]
    ensures t.deliveries[id] == s.deliveries[id].(claim := Some(operation), status := Claimed) && t.buckets == s.buckets
    ensures Quiet(s, id) ==> Quiet(t, id)
  {
    hide Intends;
  }

  lemma ClaimMeans(s: State, id: DeliveryId, operation: Operation)
    ensures Transition(s, ClaimReport(id, operation)).Success?
      <==> id in s.deliveries && s.deliveries[id].status == Queued && Intends(s, s.deliveries[id].payload, operation)
  {
    hide Intends;
  }

  /** What a claim of the only allowed write leaves is acknowledged by the receipt of that write. */
  lemma AckMeans(s: State, id: DeliveryId, operation: Operation, written: int)
    requires id in s.deliveries && s.deliveries[id].status == Claimed && s.deliveries[id].claim == Some(operation)
    requires s.deliveries[id].ack.None? && Intends(s, s.deliveries[id].payload, operation) && written > 0
    ensures var data := AckReport(id, ReceiptFor(operation, written)); Transition(s, data).Success?
  {
  }

  lemma WrittenIsClaimed(s: State, id: DeliveryId, r: Receipt)
    requires Written(s, id, r)
    ensures id in s.deliveries && s.deliveries[id].status != Queued && Matches(s, s.deliveries[id], r)
  {
  }

  lemma LandsPart(s: State, id: DeliveryId, calls: seq<ProxyCall>, part: seq<Comment<Data>>, comments: seq<Comment<Data>>)
    requires part <= comments && Lands(s, id, calls, comments)
    ensures Lands(s, id, calls, part)
  {
    hide Flawless, Landed;
    FlawlessPart(calls[0].at(0), part, comments);
    FlawlessPart(calls[0].at(1), part, comments);
  }

  lemma QueueMeans(s: State, p: Payload)
    requires IdOf(p) !in s.deliveries
    ensures Transition(s, QueueReport(IdOf(p), p)).Success? <==> OrderAdmits(s, p)
  {
    hide OrderAdmits;
  }

  lemma QueueAdds(s: State, p: Payload, t: State)
    requires IdOf(p) !in s.deliveries
    requires var e := EventOf(s, QueueReport(IdOf(p), p)); Reduce(s, e) == Success(t) && e.id !in s.events
    ensures t.deliveries == s.deliveries[IdOf(p) := Delivery(p, Queued, None, None, None)] && t.buckets == s.buckets
    ensures AllResolved(t) <==> AllResolved(s)
  {
    hide OrderAdmits;
    if AllResolved(t) {
      forall id | id in s.deliveries ensures Resolved(s.deliveries[id].status) {
        assert t.deliveries[id] == s.deliveries[id];
      }
    }
  }

  /** A carried report lands once it is queued. */
  lemma CarriedLands(s: State, t: State, p: Payload, calls: seq<ProxyCall>, comments: seq<Comment<Data>>)
    requires Deliverable(s, p) && Carried(s, p, calls, comments)
    requires IdOf(p) in t.deliveries && t.deliveries[IdOf(p)].payload == p && t.buckets == s.buckets
    requires t.deliveries[IdOf(p)].status == Queued && t.deliveries[IdOf(p)].ack.None?
    ensures Lands(t, IdOf(p), calls, comments)
  {
    hide Flawless;
    SameIntent(s, t, p, calls[0].operation);
  }

  lemma SameIntent(s: State, t: State, p: Payload, operation: Operation)
    requires t.buckets == s.buckets && Intends(s, p, operation)
    ensures Intends(t, p, operation)
  {
  }

  lemma AckIsWritten(s: State, id: DeliveryId, r: Receipt, t: State)
    requires Reduce(s, EventOf(s, AckReport(id, r))) == Success(t) && EventOf(s, AckReport(id, r)).id !in s.events
    ensures Written(t, id, r)
  {
  }

  lemma RefuseMeans(s: State, id: DeliveryId, httpStatus: int)
    ensures Transition(s, RefuseReport(id, httpStatus)).Success?
      <==> id in s.deliveries && s.deliveries[id].status == Claimed && 400 <= httpStatus < 500
  {
  }

  lemma RefuseIs(s: State, id: DeliveryId, httpStatus: int, t: State)
    requires Reduce(s, EventOf(s, RefuseReport(id, httpStatus))) == Success(t) && EventOf(s, RefuseReport(id, httpStatus)).id !in s.events
    ensures id in s.deliveries && t.deliveries == s.deliveries[id := s.deliveries[id].(status := Refused)]
  {
  }

  lemma WrittenSettles(s: State, id: DeliveryId, r: Receipt)
    requires Written(s, id, r)
    ensures Transition(s, DeliverReport(id, r)).Success?
  {
  }

  lemma {:induction false} PostingFits(log: Log, e: Event<Data>, w: World<Data>, epoch: string, sent: Sent, s: State, id: DeliveryId)
    requires Covered(log, epoch, sent) && Covered(log + [e], epoch, sent) && Intact(w, epoch, sent) && Committed(w) == log + [e]
    requires e.data.ClaimReport? && e.data.delivery == id
    requires Replay(NewState(epoch), log + [e]) == Success(s) && Quiet(s, id)
    ensures var now := sent.(posts := sent.posts + [Posting(id, |log| + 1)]); Covered(log + [e], epoch, now) && Intact(w, epoch, now)
  {
    hide Replay, Quiet, Commented, Patched;
    var posting := Posting(id, |log| + 1);
    var now := sent.(posts := sent.posts + [posting]);
    Snoc(log, e);
    assert (log + [e])[..|log| + 1] == log + [e];
    assert Issued(log + [e], epoch, posting);
    forall other ensures PostCount(now.posts, other) <= Claims(log + [e], other) {
      assert now.posts[..|now.posts| - 1] == sent.posts;
    }
    forall p | p in sent.posts ensures p.at <= |log| {
      assert Issued(log, epoch, p);
    }
  }

  lemma IntactLog(w: World<Data>, epoch: string, sent: Sent)
    requires Intact(w, epoch, sent)
    ensures Replay(NewState(epoch), Loaded(w)).Success? && UniqueIds(Loaded(w)) && Named(Loaded(w), epoch)
  {
  }

  lemma IntactCovers(w: World<Data>, epoch: string, sent: Sent)
    requires Intact(w, epoch, sent)
    ensures Covered(Committed(w), epoch, sent) && Orderly(sent)
  {
  }

  // ---------------------------------------------------------------- a queue that stands still

  /** A report that is outrun stays outrun, however the log goes on. */
  lemma {:induction false} OutrunForEver(a: Log, b: Log, epoch: string, p: Payload)
    requires a <= b && UniqueIds(b) && Replay(NewState(epoch), b).Success?
    ensures Replay(NewState(epoch), a).Success?
    ensures Outrun(Replay(NewState(epoch), a).value, p) ==> Outrun(Replay(NewState(epoch), b).value, p)
  {
    hide Replay;
    NothingIsUndone(a, b, epoch);
  }

  function ReportOf(key: string, observation: string, order: Option<int>): Payload {
    Payload(key, observation, order, None, "title", [], "assignee", "issue", "comment")
  }

  const OLDER := ReportOf("bucket", "older", Some(1))
  const NEWER := ReportOf("bucket", "newer", Some(2))
  const OTHER := ReportOf("other", "report", None)

  /**
   * Three reports queued one after another: the second outruns the first, which stays in front and is never attempted,
   * so neither the second nor the third, of another bucket, is ever reached.
   */
  lemma StarvationWitness(epoch: string)
    ensures exists log :: Queues(log, epoch, [OLDER, NEWER, OTHER]) && Starves(Replay(NewState(epoch), log).value)
  {
    hide FenceId, Replay;
    var s0 := NewState(epoch);
    NothingReplayed(s0);
    var log1, s1 := QueueOne([], epoch, s0, OLDER);
    var log2, s2 := QueueOne(log1, epoch, s1, NEWER);
    var log3, s3 := QueueOne(log2, epoch, s2, OTHER);
    assert FirstQueued(s3, 0);
    assert Queues(log3, epoch, [OLDER, NEWER, OTHER]);
    assert Starves(s3);
  }

  /** A log an outbox of this epoch can have written: these reports, queued in turn. */
  ghost predicate Queues(log: Log, epoch: string, reports: seq<Payload>) {
    && UniqueIds(log) && Named(log, epoch) && Replay(NewState(epoch), log).Success?
    && |log| == |reports|
    && forall i | 0 <= i < |log| :: log[i].data == QueueReport(IdOf(reports[i]), reports[i])
  }

  /** The first report is outrun; the two behind it are not. */
  ghost predicate Starves(s: State) {
    && |s.queued| == 3 && Stuck(s)
    && (forall i | 1 <= i < 3 :: QueuedAt(s, i) && !Outrun(s, s.deliveries[s.queued[i]].payload))
  }

  lemma {:induction false} NothingReplayed(s: State)
    ensures Replay(s, []) == Success(s)
  {
  }

  lemma QueueOne(log: Log, epoch: string, s: State, p: Payload) returns (more: Log, t: State)
    requires UniqueIds(log) && Named(log, epoch) && Replay(NewState(epoch), log) == Success(s)
    requires IdOf(p) !in s.deliveries && OrderAdmits(s, p)
    ensures more == log + [EventOf(s, QueueReport(IdOf(p), p))]
    ensures UniqueIds(more) && Named(more, epoch) && Replay(NewState(epoch), more) == Success(t)
    ensures t.deliveries == s.deliveries[IdOf(p) := Delivery(p, Queued, None, None, None)] && t.queued == s.queued + [IdOf(p)]
    ensures t.latest == if p.order.None? then s.latest else s.latest[p.key := Latest(p.order.value, p.observation)]
  {
    hide FenceId, Replay, Sound, OrderAdmits;
    var data := QueueReport(IdOf(p), p);
    var e := EventOf(s, data);
    more := log + [e];
    QueueMeans(s, p);
    FenceWorks(log, epoch, s, data);
    ReplaySnoc(NewState(epoch), log, e);
    t := Reduce(s, e).value;
    ReplayIsSound(log, epoch);
    SoundIsFenced(log, epoch, s);
    UnappliedId(log, epoch, s, e.id);
    UniqueMore(log, e);
  }
}
