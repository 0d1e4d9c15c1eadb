/** What any replayed log of outbox events keeps: claims against clears, frozen identities, and one-way recoveries. */
module OutboxRuns {
  import opened Wrappers
  import opened Chain
  import opened Protocol
  import opened Outbox
  import opened Sequences

  type Log = seq<Event<Data>>

  /** How often a delivery's POST was claimed. */
  function Claims(log: Log, id: DeliveryId): nat {
    if log == [] then 0
    else Claims(Front(log), id) + (if Last(log).data.ClaimReport? && Last(log).data.delivery == id then 1 else 0)
  }

  /** How often an operator cleared a claim as provably absent. */
  function Clears(log: Log, id: DeliveryId): nat {
    if log == [] then 0
    else Clears(Front(log), id) + (if Last(log).data.ClearClaim? && Last(log).data.delivery == id then 1 else 0)
  }

  // ---------------------------------------------------------------- fencing

  ghost predicate Fenced(log: Log, epoch: string, s: State) {
    && s.epoch == epoch
    && s.generation == |log|
    && (forall i | 0 <= i < |log| :: log[i].generation == i && log[i].epoch == epoch && log[i].id in s.events)
    && (forall id <- s.events :: s.events[id].id == id && s.events[id] in log)
  }

  lemma TransitionKeepsStamp(s: State, data: Data)
    ensures var t := Transition(s, data);
      t.Success? ==> t.value.epoch == s.epoch && t.value.generation == s.generation && t.value.events == s.events
  {
    hide NextRow, OrderAdmits, Intends, Matches, KnownBucket;
  }

  lemma FencedStep(log: Log, epoch: string, s: State, e: Event<Data>)
    requires Fenced(log, epoch, s) && e.id !in s.events && Reduce(s, e).Success?
    ensures Fenced(log + [e], epoch, Reduce(s, e).value)
  {
    hide Transition;
    TransitionKeepsStamp(s, e.data);
    var t := Reduce(s, e).value;
    var now := log + [e];
    forall id | id in t.events ensures t.events[id].id == id && t.events[id] in now {
      if id != e.id {
        assert t.events[id] == s.events[id];
      }
    }
    forall i | 0 <= i < |now| ensures now[i].generation == i && now[i].epoch == epoch && now[i].id in t.events {
      if i < |log| {
        assert now[i] == log[i];
      }
    }
  }

  // ---------------------------------------------------------------- one delivery

  /** Claims, clears and status always agree, and a status comes with its evidence. */
  predicate Balanced(d: Delivery, claims: nat, clears: nat) {
    && (d.status != Delivered ==> d.receipt.None?)
    && match d.status
       case Queued => claims == clears && d.claim.None? && d.ack.None?
       case Claimed => claims == clears + 1 && d.claim.Some? && d.ack.None?
       case Acknowledged => claims == clears + 1 && d.claim.Some? && d.ack.Some?
       case Refused => claims == clears + 1 && d.claim.Some?
       case Delivered => clears <= claims <= clears + 1 && d.receipt.Some?
  }

  /** A claim is for exactly what the frozen report says, and every receipt is of the claimed write. */
  predicate Authentic(d: Delivery) {
    && (d.claim.Some? ==>
          match d.claim.value
          case CreateIssue(title, body, labels, assignee) =>
            title == d.payload.title && body == d.payload.issueBody && labels == d.payload.labels && assignee == d.payload.assignee
          case CreateComment(number, body) => number > 0 && body == d.payload.commentBody)
    && (d.ack.Some? ==> d.claim.Some? && Answers(d.claim.value, d.ack.value))
    && (d.receipt.Some? ==>
          && Positive(d.receipt.value)
          && (d.claim.Some? ==> Answers(d.claim.value, d.receipt.value))
          && (d.ack.Some? ==> d.ack == d.receipt))
  }

  predicate Answers(claim: Operation, r: Receipt) {
    match claim
    case CreateIssue(_, _, _, _) => r.comment.None?
    case CreateComment(number, _) => r.comment.Some? && r.issue == number
  }

  /** Every known write of a bucket is in the bucket's one issue. */
  predicate InBucket(s: State, d: Delivery) {
    && (d.ack.Some? ==> d.payload.key in s.buckets && s.buckets[d.payload.key] == d.ack.value.issue)
    && (d.receipt.Some? ==> d.payload.key in s.buckets && s.buckets[d.payload.key] == d.receipt.value.issue)
  }

  predicate DeliverySound(s: State, id: DeliveryId, claims: nat, clears: nat) {
    if id in s.deliveries then
      && IdOf(s.deliveries[id].payload) == id
      && Balanced(s.deliveries[id], claims, clears) && Authentic(s.deliveries[id]) && InBucket(s, s.deliveries[id])
    else claims == 0 && clears == 0
  }

  /** The one event of a transition that is about `id`, if any. */
  predicate About(data: Data, id: DeliveryId) {
    !Recovering(data) && data.delivery == id
  }

  predicate Recovering(data: Data) {
    data.QueueRecovery? || data.ClaimComment? || data.AckComment? || data.DeliverComment? || data.ClaimClose?
    || data.AckClose? || data.DeliverClose? || data.Abandon? || data.Outdate?
  }

  lemma OthersUntouched(s: State, data: Data, id: DeliveryId)
    requires !About(data, id)
    ensures var t := Transition(s, data);
      t.Success? ==> (id in t.value.deliveries <==> id in s.deliveries)
                     && (id in s.deliveries ==> t.value.deliveries[id] == s.deliveries[id])
  {
    hide NextRow, OrderAdmits, Intends, Matches, KnownBucket;
  }

  lemma QueueingIsSound(s: State, id: DeliveryId, p: Payload, claims: nat, clears: nat)
    requires DeliverySound(s, id, claims, clears) && Queue(s, id, p).Success?
    ensures DeliverySound(Queue(s, id, p).value, id, claims, clears)
  {
    hide OrderAdmits;
  }

  lemma OwnStep(s: State, data: Data, id: DeliveryId, claims: nat, clears: nat)
    requires About(data, id) && !data.QueueReport?
    requires DeliverySound(s, id, claims, clears) && Transition(s, data).Success?
    ensures DeliverySound(Transition(s, data).value, id,
                          claims + (if data.ClaimReport? then 1 else 0), clears + (if data.ClearClaim? then 1 else 0))
  {
  }

  lemma DeliveryStep(s: State, data: Data, id: DeliveryId, claims: nat, clears: nat)
    requires DeliverySound(s, id, claims, clears) && Transition(s, data).Success?
    ensures DeliverySound(Transition(s, data).value, id,
                          claims + (if data.ClaimReport? && data.delivery == id then 1 else 0),
                          clears + (if data.ClearClaim? && data.delivery == id then 1 else 0))
  {
    if !About(data, id) {
      hide Transition, Balanced, Authentic;
      OthersUntouched(s, data, id);
      BucketsStand(s, data);
    } else if data.QueueReport? {
      hide Queue, DeliverySound;
      QueueingIsSound(s, id, data.payload, claims, clears);
    } else {
      hide Transition, DeliverySound;
      OwnStep(s, data, id, claims, clears);
    }
  }

  // ---------------------------------------------------------------- one recovery

  predicate CommentDone(status: RecoveryStatus) {
    status == CommentDelivered || CloseSpent(status)
  }

  /** The close PATCH has been claimed. */
  predicate CloseSpent(status: RecoveryStatus) {
    status == CloseClaimed || status == CloseAcknowledged || status == Closed
  }

  /** A close claim only ever follows an exact comment receipt of a claimed comment. */
  predicate RowSound(id: Identity, row: Row) {
    && row.recovery.identity == id
    && (row.status == Waiting ==> row.commentClaim.None? && row.commentReceipt.None?)
    && (CommentDone(row.status) ==>
          && row.commentClaim == Some(PostComment(row.issue, row.recovery.commentBody))
          && row.commentReceipt.Some? && row.commentReceipt.value.issue == row.issue && row.commentReceipt.value.comment.Some?)
    && (row.commentClaim.Some? ==> row.commentClaim.value == PostComment(row.issue, row.recovery.commentBody))
    && (row.commentReceipt.Some? ==> row.commentReceipt.value.issue == row.issue && row.commentReceipt.value.comment.Some?)
    && (CloseSpent(row.status) <==> row.closeClaim.Some?)
    && (row.status == Closed ==> row.closeReceipt == Some(row.issue))
    && (row.closeReceipt.Some? ==> row.closeReceipt.value == row.issue)
    && (row.status == CommentClaimed || row.status == CommentAcknowledged ==> row.commentClaim.Some?)
  }

  predicate Terminal(status: RecoveryStatus) {
    status == Closed || status == Stale || status == NotApplicable
  }

  /** Recoveries only move forward: no claim is given back, no terminal state is left, nothing frozen changes. */
  predicate Forward(a: Row, b: Row) {
    && b.recovery == a.recovery && b.issue == a.issue && b.bucketBody == a.bucketBody
    && (a.status != Waiting ==> b.status != Waiting)
    && (CloseSpent(a.status) ==> CloseSpent(b.status))
    && (Terminal(a.status) ==> b == a)
    && (a.commentReceipt.Some? ==> b.commentReceipt == a.commentReceipt)
    && (a.closeReceipt.Some? ==> b.closeReceipt == a.closeReceipt)
  }

  lemma RowStep(id: Identity, row: Row, data: Data)
    requires RowSound(id, row) && NextRow(row, data).Success?
    ensures RowSound(id, NextRow(row, data).value) && Forward(row, NextRow(row, data).value)
  {
  }

  // ---------------------------------------------------------------- the whole state

  ghost predicate RowsSound(s: State) {
    && (forall id <- s.recoveries :: RowSound(id, s.recoveries[id]))
    && (forall i | 0 <= i < |s.recovering| :: s.recovering[i] in s.recoveries)
    && (forall id <- s.recoveries :: id in s.recovering)
  }

  ghost predicate KeysKept(s: State) {
    && (forall i | 0 <= i < |s.queued| :: s.queued[i] in s.deliveries)
    && (forall id <- s.deliveries :: id in s.queued)
    && (forall i, j | 0 <= i < j < |s.queued| :: s.queued[i] != s.queued[j])
  }

  ghost predicate DeliveriesSound(log: Log, s: State) {
    forall id :: DeliverySound(s, id, Claims(log, id), Clears(log, id))
  }

  ghost predicate Sound(log: Log, epoch: string, s: State) {
    Fenced(log, epoch, s) && DeliveriesSound(log, s) && RowsSound(s) && KeysKept(s)
  }

  /** Nothing settled is undone: frozen payloads, delivered receipts, buckets, failure order and recoveries only move forward. */
  ghost predicate Monotone(s: State, t: State) {
    ReportsMonotone(s, t) && RowsMonotone(s, t)
  }

  lemma ReportsKeepRows(s: State, data: Data)
    requires !Recovering(data)
    ensures var t := Transition(s, data);
      t.Success? ==> t.value.recoveries == s.recoveries && t.value.recovering == s.recovering
  {
    hide OrderAdmits, Intends, Matches;
  }

  lemma RowsKeepReports(s: State, data: Data)
    requires Recovering(data) && !data.QueueRecovery?
    ensures var t := Transition(s, data);
      t.Success? ==>
        && data.id in s.recoveries && NextRow(s.recoveries[data.id], data).Success?
        && t.value == s.(recoveries := s.recoveries[data.id := NextRow(s.recoveries[data.id], data).value])
  {
    hide NextRow;
  }

  lemma QueueRowKeeps(s: State, r: Recovery, issue: int, body: string)
    ensures var t := QueueRecoveryRow(s, r, issue, body);
      t.Success? ==>
        || t.value == s
        || (r.identity !in s.recoveries
            && t.value == s.(recoveries := s.recoveries[r.identity := Row(r, issue, body, Waiting, None, None, None, None)],
                             recovering := s.recovering + [r.identity]))
  {
    hide KnownBucket;
  }

  lemma RowsStep(s: State, data: Data)
    requires RowsSound(s) && Transition(s, data).Success?
    ensures RowsSound(Transition(s, data).value)
  {
    hide NextRow, RowSound, QueueRecoveryRow;
    if data.QueueRecovery? {
      NewRowIsSound(data.recovery, data.issue, data.bucketBody);
      QueueRowKeeps(s, data.recovery, data.issue, data.bucketBody);
      assert forall id <- s.recovering :: id in Transition(s, data).value.recovering;
    } else {
      hide Transition;
      if Recovering(data) {
        RowsKeepReports(s, data);
        RowStep(data.id, s.recoveries[data.id], data);
      } else {
        ReportsKeepRows(s, data);
      }
    }
  }

  lemma NewRowIsSound(r: Recovery, issue: int, body: string)
    ensures RowSound(r.identity, Row(r, issue, body, Waiting, None, None, None, None))
  {
  }

  lemma OnlyQueueAddsKeys(s: State, data: Data)
    requires !data.QueueReport?
    ensures var t := Transition(s, data);
      t.Success? ==> t.value.queued == s.queued && t.value.deliveries.Keys == s.deliveries.Keys
  {
    hide NextRow, Intends, Matches, KnownBucket;
  }

  lemma QueueAddsKey(s: State, id: DeliveryId, p: Payload)
    requires KeysKept(s) && Queue(s, id, p).Success?
    ensures KeysKept(Queue(s, id, p).value)
  {
    hide OrderAdmits;
    var t := Queue(s, id, p).value;
    assert forall x <- s.queued :: x in t.queued;
    assert id in t.queued;
  }

  lemma KeysStep(s: State, data: Data)
    requires KeysKept(s) && Transition(s, data).Success?
    ensures KeysKept(Transition(s, data).value)
  {
    if data.QueueReport? {
      hide Queue, KeysKept;
      QueueAddsKey(s, data.delivery, data.payload);
    } else {
      hide Transition;
      OnlyQueueAddsKeys(s, data);
    }
  }

  ghost predicate ReportsMonotone(s: State, t: State) {
    && (forall id <- s.deliveries :: id in t.deliveries && t.deliveries[id].payload == s.deliveries[id].payload
                                     && (s.deliveries[id].status == Delivered ==> t.deliveries[id] == s.deliveries[id]))
    && (forall key <- s.buckets :: key in t.buckets && t.buckets[key] == s.buckets[key])
    && (forall key <- s.latest :: key in t.latest && t.latest[key].order >= s.latest[key].order
                                  && (t.latest[key].order == s.latest[key].order ==> t.latest[key] == s.latest[key]))
  }

  ghost predicate RowsMonotone(s: State, t: State) {
    forall id <- s.recoveries :: id in t.recoveries && Forward(s.recoveries[id], t.recoveries[id])
  }

  lemma BucketsStand(s: State, data: Data)
    ensures var t := Transition(s, data);
      t.Success? ==> forall key <- s.buckets :: key in t.value.buckets && t.value.buckets[key] == s.buckets[key]
  {
    hide NextRow, Intends, KnownBucket, OrderAdmits;
  }

  lemma OrdersGrow(s: State, data: Data)
    ensures var t := Transition(s, data);
      t.Success? ==>
        forall key <- s.latest :: key in t.value.latest && t.value.latest[key].order >= s.latest[key].order
                                  && (t.value.latest[key].order == s.latest[key].order ==> t.value.latest[key] == s.latest[key])
  {
    hide NextRow, Intends, KnownBucket, Matches;
  }

  lemma ReportStands(s: State, data: Data, id: DeliveryId)
    requires id in s.deliveries && Transition(s, data).Success?
    ensures var t := Transition(s, data).value;
      && id in t.deliveries && t.deliveries[id].payload == s.deliveries[id].payload
      && (s.deliveries[id].status == Delivered ==> t.deliveries[id] == s.deliveries[id])
  {
    if !About(data, id) {
      hide Transition;
      OthersUntouched(s, data, id);
    } else {
      hide NextRow, Intends, KnownBucket, Matches, OrderAdmits;
    }
  }

  lemma ReportsStand(s: State, data: Data)
    ensures var t := Transition(s, data);
      t.Success? ==>
        forall id <- s.deliveries :: id in t.value.deliveries && t.value.deliveries[id].payload == s.deliveries[id].payload
                                     && (s.deliveries[id].status == Delivered ==> t.value.deliveries[id] == s.deliveries[id])
  {
    hide Transition;
    if Transition(s, data).Success? {
      forall id | id in s.deliveries
        ensures var t := Transition(s, data).value;
          id in t.deliveries && t.deliveries[id].payload == s.deliveries[id].payload
          && (s.deliveries[id].status == Delivered ==> t.deliveries[id] == s.deliveries[id])
      {
        ReportStands(s, data, id);
      }
    }
  }

  lemma ReportsStep(s: State, data: Data)
    requires Transition(s, data).Success?
    ensures ReportsMonotone(s, Transition(s, data).value)
  {
    hide Transition;
    BucketsStand(s, data);
    OrdersGrow(s, data);
    ReportsStand(s, data);
  }

  lemma MonotoneStep(s: State, data: Data)
    requires RowsSound(s) && Transition(s, data).Success?
    ensures Monotone(s, Transition(s, data).value)
  {
    hide NextRow, RowSound, Forward, QueueRecoveryRow, ReportsMonotone;
    forall id | id in s.recoveries ensures Forward(s.recoveries[id], s.recoveries[id]) {
      ForwardItself(s.recoveries[id]);
    }
    ReportsStep(s, data);
    if data.QueueRecovery? {
      QueueRowKeeps(s, data.recovery, data.issue, data.bucketBody);
    } else {
      hide Transition;
      if Recovering(data) {
        RowsKeepReports(s, data);
        RowStep(data.id, s.recoveries[data.id], data);
      } else {
        ReportsKeepRows(s, data);
      }
    }
  }

  lemma ForwardItself(row: Row)
    ensures Forward(row, row)
  {
  }

  lemma DeliveriesStep(log: Log, s: State, e: Event<Data>)
    requires DeliveriesSound(log, s) && Transition(s, e.data).Success?
    ensures DeliveriesSound(log + [e], Transition(s, e.data).value)
  {
    hide Transition, DeliverySound;
    Snoc(log, e);
    forall id ensures DeliverySound(Transition(s, e.data).value, id, Claims(log + [e], id), Clears(log + [e], id)) {
      DeliveryStep(s, e.data, id, Claims(log, id), Clears(log, id));
    }
  }

  lemma SoundStep(log: Log, epoch: string, s: State, e: Event<Data>)
    requires Sound(log, epoch, s) && e.id !in s.events && Reduce(s, e).Success?
    ensures Sound(log + [e], epoch, Reduce(s, e).value)
    ensures Monotone(s, Reduce(s, e).value)
  {
    hide Transition, Fenced, RowSound, Forward, Claims, Clears, Balanced;
    FencedStep(log, epoch, s, e);
    DeliveriesStep(log, s, e);
    RowsStep(s, e.data);
    KeysStep(s, e.data);
    MonotoneStep(s, e.data);
    var t := Transition(s, e.data).value;
    assert forall id, claims, clears | DeliverySound(t, id, claims, clears) :: DeliverySound(Stamp(t, e), id, claims, clears);
  }

  lemma UniquePrefix(log: Log, e: Event<Data>)
    requires UniqueIds(log + [e])
    ensures UniqueIds(log) && NewId(log, e.id)
  {
    var all := log + [e];
    forall i, j | 0 <= i < j < |log| ensures log[i].id != log[j].id {
      assert all[i].id != all[j].id;
    }
    forall i | 0 <= i < |log| ensures log[i].id != e.id {
      assert all[i].id != all[|log|].id;
    }
  }

  lemma UnappliedId(log: Log, epoch: string, s: State, id: string)
    requires Fenced(log, epoch, s)
    ensures NewId(log, id) <==> id !in s.events
  {
    if id in s.events {
      var i :| 0 <= i < |log| && log[i] == s.events[id];
    }
  }

  /** Every log the journal can return replays to a sound state. */
  lemma {:induction false} ReplayIsSound(log: Log, epoch: string)
    requires UniqueIds(log) && Replay(NewState(epoch), log).Success?
    ensures Sound(log, epoch, Replay(NewState(epoch), log).value)
    decreases |log|
  {
    hide Sound, Reduce;
    if log == [] {
      NothingIsSound(epoch);
    } else {
      var before, e := Front(log), Last(log);
      assert log == before + [e];
      UniquePrefix(before, e);
      ReplaySnoc(NewState(epoch), before, e);
      ReplayIsSound(before, epoch);
      var s := Replay(NewState(epoch), before).value;
      SoundIsFenced(before, epoch, s);
      UnappliedId(before, epoch, s, e.id);
      SoundStep(before, epoch, s, e);
    }
  }

  lemma NothingIsSound(epoch: string)
    ensures Sound([], epoch, NewState(epoch))
  {
  }

  lemma SoundIsFenced(log: Log, epoch: string, s: State)
    requires Sound(log, epoch, s)
    ensures Fenced(log, epoch, s)
  {
  }

  lemma MonotoneTransitive(a: State, b: State, c: State)
    requires Monotone(a, b) && Monotone(b, c)
    ensures Monotone(a, c)
  {
  }

  lemma MonotoneItself(s: State)
    ensures Monotone(s, s)
  {
  }

  /** However a log goes on, nothing it settled is undone. */
  lemma {:induction false} NothingIsUndone(a: Log, b: Log, epoch: string)
    requires a <= b && UniqueIds(b) && Replay(NewState(epoch), b).Success?
    ensures Replay(NewState(epoch), a).Success?
    ensures Monotone(Replay(NewState(epoch), a).value, Replay(NewState(epoch), b).value)
    decreases |b|
  {
    hide Sound, Reduce, Monotone;
    if a == b {
      MonotoneItself(Replay(NewState(epoch), b).value);
    } else {
      var before, e := Front(b), Last(b);
      assert b == before + [e];
      UniquePrefix(before, e);
      ReplaySnoc(NewState(epoch), before, e);
      NothingIsUndone(a, before, epoch);
      ReplayIsSound(before, epoch);
      var s := Replay(NewState(epoch), before).value;
      SoundIsFenced(before, epoch, s);
      UnappliedId(before, epoch, s, e.id);
      SoundStep(before, epoch, s, e);
      MonotoneTransitive(Replay(NewState(epoch), a).value, s, Replay(NewState(epoch), b).value);
    }
  }

  /** A delivery's POST is claimed at most once more than claims on it were cleared. */
  lemma {:induction false} ClaimsAreBounded(log: Log, epoch: string, id: DeliveryId)
    requires UniqueIds(log) && Replay(NewState(epoch), log).Success?
    ensures Claims(log, id) <= 1 + Clears(log, id)
  {
    hide Fenced, RowsSound, KeysKept;
    ReplayIsSound(log, epoch);
    assert DeliverySound(Replay(NewState(epoch), log).value, id, Claims(log, id), Clears(log, id));
  }

  /** Two delivered reports of one bucket are in one issue, and each write carries exactly its frozen report. */
  lemma {:induction false} OneIssuePerBucket(log: Log, epoch: string, a: DeliveryId, b: DeliveryId)
    requires UniqueIds(log) && Replay(NewState(epoch), log).Success?
    ensures var s := Replay(NewState(epoch), log).value;
      && (a in s.deliveries && b in s.deliveries && a.key == b.key
          && s.deliveries[a].status == Delivered && s.deliveries[b].status == Delivered
          ==> s.deliveries[a].receipt.Some? && s.deliveries[b].receipt.Some?
              && s.deliveries[a].receipt.value.issue == s.deliveries[b].receipt.value.issue)
      && (a in s.deliveries ==> Authentic(s.deliveries[a]))
  {
    hide Fenced, RowsSound, KeysKept, Replay, Authentic;
    ReplayIsSound(log, epoch);
    var s := Replay(NewState(epoch), log).value;
    assert DeliverySound(s, a, Claims(log, a), Clears(log, a));
    assert DeliverySound(s, b, Claims(log, b), Clears(log, b));
  }

  lemma {:induction false} ClaimsGrow(a: Log, b: Log, id: DeliveryId)
    requires a <= b
    ensures Claims(a, id) <= Claims(b, id)
    decreases |b|
  {
    if a != b {
      assert a <= Front(b);
      ClaimsGrow(a, Front(b), id);
    }
  }
}
