/** The report outbox's reducer: which write may be claimed, acknowledged, settled or cleared, and in what order. */
module Outbox {
  import opened Wrappers
  import opened Chain

  // ---------------------------------------------------------------- reports

  /** A report frozen at queueing time; `management` is the key of a machine-managed bucket. */
  datatype Payload = Payload(
    key: string,
    observation: string,
    order: Option<int>,
    management: Option<string>,
    title: string,
    labels: seq<string>,
    assignee: string,
    issueBody: string,
    commentBody: string)

  /** The digest of a report's key and observation, as an ideal digest. */
  datatype DeliveryId = DeliveryId(key: string, observation: string)

  function IdOf(p: Payload): DeliveryId {
    DeliveryId(p.key, p.observation)
  }

  datatype Operation =
    | CreateIssue(title: string, body: string, labels: seq<string>, assignee: string)
    | CreateComment(number: int, body: string)

  /** The write: a new issue when `comment` is absent, else a comment on `issue`. */
  datatype Receipt = Receipt(issue: int, comment: Option<int>)

  datatype Status = Queued | Claimed | Acknowledged | Delivered | Refused

  datatype Delivery = Delivery(payload: Payload, status: Status, claim: Option<Operation>, ack: Option<Receipt>, receipt: Option<Receipt>)

  datatype Latest = Latest(order: int, observation: string)

  // ---------------------------------------------------------------- recoveries

  /** The authenticated identity of a success; its ideal digest is the identity itself. */
  datatype Identity = Identity(
    key: string, suite: string, failureClass: string, observation: string, target: string, request: string,
    run: int, attempt: int, policy: string, selection: string, epoch: string, order: int, evidence: string)

  datatype Recovery = Recovery(identity: Identity, commentBody: string)

  datatype RecoveryStatus =
    | Waiting | CommentClaimed | CommentAcknowledged | CommentDelivered
    | CloseClaimed | CloseAcknowledged | Closed | Stale | NotApplicable

  datatype RecoveryOperation = PostComment(number: int, body: string) | PatchClosed(number: int)

  datatype Row = Row(
    recovery: Recovery,
    issue: int,
    bucketBody: string,
    status: RecoveryStatus,
    commentClaim: Option<RecoveryOperation>,
    commentReceipt: Option<Receipt>,
    closeClaim: Option<RecoveryOperation>,
    closeReceipt: Option<int>)

  datatype Data =
    | QueueReport(delivery: DeliveryId, payload: Payload)
    | ClaimReport(delivery: DeliveryId, operation: Operation)
    | AckReport(delivery: DeliveryId, receipt: Receipt)
    | DeliverReport(delivery: DeliveryId, receipt: Receipt)
    | RefuseReport(delivery: DeliveryId, httpStatus: int)
    | ClearClaim(delivery: DeliveryId, claim: Operation, why: string)
    | QueueRecovery(recovery: Recovery, issue: int, bucketBody: string)
    | ClaimComment(id: Identity, intent: RecoveryOperation)
    | AckComment(id: Identity, receipt: Receipt)
    | DeliverComment(id: Identity, receipt: Receipt)
    | ClaimClose(id: Identity, intent: RecoveryOperation)
    | AckClose(id: Identity, issue: int)
    | DeliverClose(id: Identity, issue: int)
    | Abandon(id: Identity, why: string)
    | Outdate(id: Identity, why: string)

  /** `queued` and `recovering` keep the key order of the two tables. */
  datatype State = State(
    epoch: string,
    generation: nat,
    deliveries: map<DeliveryId, Delivery>,
    queued: seq<DeliveryId>,
    buckets: map<string, int>,
    latest: map<string, Latest>,
    recoveries: map<Identity, Row>,
    recovering: seq<Identity>,
    events: map<string, Event<Data>>)

  function NewState(epoch: string): State {
    State(epoch, 0, map[], [], map[], map[], map[], [], map[])
  }

  // ---------------------------------------------------------------- report transitions

  predicate OrderAdmits(s: State, p: Payload) {
    p.order.Some? ==>
      && p.order.value > 0
      && (p.key in s.latest ==>
            && p.order.value >= s.latest[p.key].order
            && (p.order.value == s.latest[p.key].order ==> s.latest[p.key].observation == p.observation))
  }

  function Queue(s: State, id: DeliveryId, p: Payload): Result<State> {
    if id != IdOf(p) || (id in s.deliveries && s.deliveries[id].payload != p) || !OrderAdmits(s, p) then Failure
    else
      var queued := if id in s.deliveries then s
                    else s.(deliveries := s.deliveries[id := Delivery(p, Queued, None, None, None)], queued := s.queued + [id]);
      Success(if p.order.None? then queued else queued.(latest := s.latest[p.key := Latest(p.order.value, p.observation)]))
  }

  /** The only write a frozen report may turn into, given where its bucket is known to be. */
  predicate Intends(s: State, p: Payload, operation: Operation) {
    match operation
    case CreateIssue(title, body, labels, assignee) =>
      p.key !in s.buckets && title == p.title && body == p.issueBody && labels == p.labels && assignee == p.assignee
    case CreateComment(number, body) =>
      number > 0 && (p.key in s.buckets ==> s.buckets[p.key] == number) && body == p.commentBody
  }

  function Claim(s: State, id: DeliveryId, operation: Operation): Result<State> {
    if id in s.deliveries && s.deliveries[id].status == Queued && Intends(s, s.deliveries[id].payload, operation) then
      Success(s.(deliveries := s.deliveries[id := s.deliveries[id].(claim := Some(operation), status := Claimed)]))
    else Failure
  }

  predicate Positive(r: Receipt) {
    r.issue > 0 && (r.comment.Some? ==> r.comment.value > 0)
  }

  /** The receipt is of the claimed kind and target, of the acknowledged write, and in the known bucket. */
  predicate Matches(s: State, d: Delivery, r: Receipt) {
    && Positive(r)
    && (d.claim.Some? ==>
          match d.claim.value
          case CreateIssue(_, _, _, _) => r.comment.None?
          case CreateComment(number, _) => r.comment.Some? && r.issue == number)
    && (d.ack.Some? ==> d.ack.value == r)
    && (d.payload.key in s.buckets ==> s.buckets[d.payload.key] == r.issue)
  }

  predicate Open(status: Status) {
    status == Queued || status == Claimed || status == Acknowledged
  }

  function Acknowledge(s: State, id: DeliveryId, r: Receipt): Result<State> {
    if id in s.deliveries && s.deliveries[id].status == Claimed && Matches(s, s.deliveries[id], r) then
      var d := s.deliveries[id];
      Success(s.(buckets := s.buckets[d.payload.key := r.issue],
                 deliveries := s.deliveries[id := d.(ack := Some(r), status := Acknowledged)]))
    else Failure
  }

  function Settle(s: State, id: DeliveryId, r: Receipt): Result<State> {
    if id in s.deliveries && Open(s.deliveries[id].status) && Matches(s, s.deliveries[id], r) then
      var d := s.deliveries[id];
      Success(s.(buckets := s.buckets[d.payload.key := r.issue],
                 deliveries := s.deliveries[id := d.(receipt := Some(r), status := Delivered)]))
    else Failure
  }

  function Refuse(s: State, id: DeliveryId, httpStatus: int): Result<State> {
    if id in s.deliveries && s.deliveries[id].status == Claimed && 400 <= httpStatus < 500 then
      Success(s.(deliveries := s.deliveries[id := s.deliveries[id].(status := Refused)]))
    else Failure
  }

  function Clear(s: State, id: DeliveryId, claim: Operation, why: string): Result<State> {
    if id in s.deliveries && s.deliveries[id].status == Claimed && s.deliveries[id].claim == Some(claim) && why != "" then
      Success(s.(deliveries := s.deliveries[id := s.deliveries[id].(claim := None, status := Queued)]))
    else Failure
  }

  // ---------------------------------------------------------------- recovery transitions

  predicate IsBucket(d: Delivery, key: string, issue: int, body: string) {
    d.status == Delivered && d.payload.management == Some(key) && d.receipt.Some? && d.receipt.value.issue == issue
    && d.payload.issueBody == body
  }

  predicate KnownBucket(s: State, key: string, issue: int, body: string) {
    exists id <- s.deliveries :: IsBucket(s.deliveries[id], key, issue, body)
  }

  predicate WellFormed(i: Identity) {
    i.epoch != "" && i.observation != "" && i.request != "" && i.run > 0 && i.attempt > 0 && i.order > 0
  }

  function QueueRecoveryRow(s: State, r: Recovery, issue: int, body: string): Result<State> {
    if issue <= 0 || !WellFormed(r.identity) || !KnownBucket(s, r.identity.key, issue, body) then Failure
    else if r.identity in s.recoveries then
      var row := s.recoveries[r.identity];
      if row.recovery == r && row.issue == issue then Success(s) else Failure
    else if body == "" then Failure
    else
      Success(s.(recoveries := s.recoveries[r.identity := Row(r, issue, body, Waiting, None, None, None, None)],
                 recovering := s.recovering + [r.identity]))
  }

  /** The next row for a recovery event, if the row's status allows it. */
  function NextRow(row: Row, data: Data): Result<Row> {
    match data
    case ClaimComment(_, intent) =>
      if row.status == Waiting && intent == PostComment(row.issue, row.recovery.commentBody) then
        Success(row.(commentClaim := Some(intent), status := CommentClaimed))
      else Failure
    case AckComment(_, r) =>
      if CommentReceiptFits(row, r) then Success(row.(commentReceipt := Some(r), status := CommentAcknowledged)) else Failure
    case DeliverComment(_, r) =>
      if CommentReceiptFits(row, r) then Success(row.(commentReceipt := Some(r), status := CommentDelivered)) else Failure
    case ClaimClose(_, intent) =>
      if row.status == CommentDelivered && intent == PatchClosed(row.issue) then
        Success(row.(closeClaim := Some(intent), status := CloseClaimed))
      else Failure
    case AckClose(_, issue) =>
      if CloseReceiptFits(row, issue) then Success(row.(closeReceipt := Some(issue), status := CloseAcknowledged)) else Failure
    case DeliverClose(_, issue) =>
      if CloseReceiptFits(row, issue) then Success(row.(closeReceipt := Some(issue), status := Closed)) else Failure
    case Abandon(_, why) =>
      if why != "" && BeforeClose(row.status) then Success(row.(status := NotApplicable)) else Failure
    case Outdate(_, why) =>
      if why != "" && BeforeClose(row.status) then Success(row.(status := Stale)) else Failure
    case _ => Failure
  }

  predicate BeforeClose(status: RecoveryStatus) {
    status == Waiting || status == CommentClaimed || status == CommentAcknowledged || status == CommentDelivered
  }

  predicate CommentReceiptFits(row: Row, r: Receipt) {
    && r.issue == row.issue && r.comment.Some? && r.comment.value > 0
    && (row.status == CommentClaimed || row.status == CommentAcknowledged)
    && row.commentClaim.Some?
    && (row.commentReceipt.Some? ==> row.commentReceipt.value == r)
  }

  predicate CloseReceiptFits(row: Row, issue: int) {
    && issue == row.issue
    && (row.status == CloseClaimed || row.status == CloseAcknowledged)
    && row.closeClaim.Some?
    && (row.closeReceipt.Some? ==> row.closeReceipt.value == issue)
  }

  function AdvanceRow(s: State, id: Identity, data: Data): Result<State> {
    if id !in s.recoveries then Failure
    else
      var row :- NextRow(s.recoveries[id], data);
      Success(s.(recoveries := s.recoveries[id := row]))
  }

  function Transition(s: State, data: Data): Result<State> {
    match data
    case QueueReport(id, payload) => Queue(s, id, payload)
    case ClaimReport(id, operation) => Claim(s, id, operation)
    case AckReport(id, receipt) => Acknowledge(s, id, receipt)
    case DeliverReport(id, receipt) => Settle(s, id, receipt)
    case RefuseReport(id, httpStatus) => Refuse(s, id, httpStatus)
    case ClearClaim(id, claim, why) => Clear(s, id, claim, why)
    case QueueRecovery(recovery, issue, body) => QueueRecoveryRow(s, recovery, issue, body)
    case _ => AdvanceRow(s, data.id, data)
  }

  function Stamp(s: State, e: Event<Data>): State {
    s.(events := s.events[e.id := e], generation := s.generation + 1)
  }

  function Reduce(s: State, e: Event<Data>): Result<State> {
    if e.id in s.events then
      if s.events[e.id] == e then Success(s) else Failure
    else if e.epoch != s.epoch || e.generation != s.generation then Failure
    else
      var t :- Transition(s, e.data);
      Success(Stamp(t, e))
  }

  function Replay(s: State, events: seq<Event<Data>>): Result<State>
    decreases |events|
  {
    if events == [] then Success(s)
    else
      var t :- Reduce(s, events[0]);
      Replay(t, events[1..])
  }

  lemma {:induction false} ReplaySplit(s: State, a: seq<Event<Data>>, b: seq<Event<Data>>)
    ensures var r := Replay(s, a);
      Replay(s, a + b) == if r.Failure? then Failure else Replay(r.value, b)
    decreases |a|
  {
    hide Reduce;
    if a == [] {
      assert a + b == b;
    } else {
      assert (a + b)[1..] == a[1..] + b;
      var t := Reduce(s, a[0]);
      if t.Success? {
        ReplaySplit(t.value, a[1..], b);
      }
    }
  }

  lemma {:induction false} ReplaySnoc(s: State, events: seq<Event<Data>>, e: Event<Data>)
    ensures var r := Replay(s, events);
      Replay(s, events + [e]) == if r.Failure? then Failure else Reduce(r.value, e)
  {
    hide Reduce;
    ReplaySplit(s, events, [e]);
    if Replay(s, events).Success? {
      ReplayOne(Replay(s, events).value, e);
    }
  }

  lemma {:induction false} ReplayOne(s: State, e: Event<Data>)
    ensures Replay(s, [e]) == Reduce(s, e)
  {
    hide Reduce;
    assert [e][1..] == [];
  }
}
