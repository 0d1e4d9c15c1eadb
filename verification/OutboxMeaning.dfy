/** What each outbox event asks of the journal and leaves in it, field by field; the reducer accepts exactly these. */
module OutboxMeaning {
  import opened Wrappers
  import opened Chain
  import opened Outbox

  /** The frozen payload is queued once, under its own identity, and never behind a newer report of its bucket. */
  lemma QueueMeans(s: State, id: DeliveryId, p: Payload)
    ensures var t := Transition(s, QueueReport(id, p));
      && (t.Success? <==>
            && id.key == p.key && id.observation == p.observation
            && (id in s.deliveries ==> s.deliveries[id].payload == p)
            && (p.order.Some? ==>
                  && p.order.value >= 1
                  && (p.key in s.latest ==>
                        || p.order.value > s.latest[p.key].order
                        || (p.order.value == s.latest[p.key].order && p.observation == s.latest[p.key].observation))))
      && (t.Success? ==>
            t.value == s.(
              deliveries := if id in s.deliveries then s.deliveries else s.deliveries[id := Delivery(p, Queued, None, None, None)],
              queued := if id in s.deliveries then s.queued else s.queued + [id],
              latest := if p.order.None? then s.latest else s.latest[p.key := Latest(p.order.value, p.observation)]))
  {
  }

  /** A write is claimed once, for a queued report: a new issue only while its bucket is unknown, else a comment on the bucket. */
  lemma ClaimMeans(s: State, id: DeliveryId, operation: Operation)
    ensures var t := Transition(s, ClaimReport(id, operation));
      && (t.Success? <==>
            && id in s.deliveries && s.deliveries[id].status == Queued
            && var p := s.deliveries[id].payload;
            || (p.key !in s.buckets && operation == CreateIssue(p.title, p.issueBody, p.labels, p.assignee))
            || (operation.CreateComment? && operation.number >= 1 && operation.body == p.commentBody
                && (p.key in s.buckets ==> operation.number == s.buckets[p.key])))
      && (t.Success? ==>
            t.value == s.(deliveries := s.deliveries[id := s.deliveries[id].(claim := Some(operation), status := Claimed)]))
  {
  }

  /** The receipt is a positive one of the claimed kind, of the acknowledged write, and in the known bucket. */
  predicate Fits(s: State, d: Delivery, r: Receipt) {
    && r.issue >= 1 && (r.comment.Some? ==> r.comment.value >= 1)
    && (d.claim.Some? && d.claim.value.CreateIssue? ==> r.comment.None?)
    && (d.claim.Some? && d.claim.value.CreateComment? ==> r.comment.Some? && r.issue == d.claim.value.number)
    && (d.ack.Some? ==> r == d.ack.value)
    && (d.payload.key in s.buckets ==> r.issue == s.buckets[d.payload.key])
  }

  /** An acknowledgement needs the claim, a delivery any unsettled write; both fix the bucket. */
  lemma ReceiptMeans(s: State, id: DeliveryId, r: Receipt)
    ensures var t := Transition(s, AckReport(id, r));
      && (t.Success? <==> id in s.deliveries && s.deliveries[id].status == Claimed && Fits(s, s.deliveries[id], r))
      && (t.Success? ==>
            t.value == s.(buckets := s.buckets[s.deliveries[id].payload.key := r.issue],
                          deliveries := s.deliveries[id := s.deliveries[id].(ack := Some(r), status := Acknowledged)]))
    ensures var t := Transition(s, DeliverReport(id, r));
      && (t.Success? <==>
            id in s.deliveries && s.deliveries[id].status in {Queued, Claimed, Acknowledged} && Fits(s, s.deliveries[id], r))
      && (t.Success? ==>
            t.value == s.(buckets := s.buckets[s.deliveries[id].payload.key := r.issue],
                          deliveries := s.deliveries[id := s.deliveries[id].(receipt := Some(r), status := Delivered)]))
  {
    if id in s.deliveries {
      assert Matches(s, s.deliveries[id], r) <==> Fits(s, s.deliveries[id], r);
    }
  }

  /** Only a claimed write is refused or cleared: refused by a client error, cleared by naming exactly what was claimed. */
  lemma RefusalMeans(s: State, id: DeliveryId, httpStatus: int, claim: Operation, why: string)
    ensures var t := Transition(s, RefuseReport(id, httpStatus));
      && (t.Success? <==> id in s.deliveries && s.deliveries[id].status == Claimed && httpStatus / 100 == 4)
      && (t.Success? ==> t.value == s.(deliveries := s.deliveries[id := s.deliveries[id].(status := Refused)]))
    ensures var t := Transition(s, ClearClaim(id, claim, why));
      && (t.Success? <==>
            id in s.deliveries && s.deliveries[id].status == Claimed && s.deliveries[id].claim == Some(claim) && why != "")
      && (t.Success? ==> t.value == s.(deliveries := s.deliveries[id := s.deliveries[id].(claim := None, status := Queued)]))
  {
  }

  /** A recovery is queued for the issue and body of a delivered managed report of its bucket. */
  lemma RecoveryMeans(s: State, r: Recovery, issue: int, body: string)
    ensures var i, t := r.identity, Transition(s, QueueRecovery(r, issue, body));
      && (t.Success? <==>
            && issue >= 1
            && i.epoch != "" && i.observation != "" && i.request != "" && i.run >= 1 && i.attempt >= 1 && i.order >= 1
            && (exists id <- s.deliveries ::
                  && s.deliveries[id].status == Delivered && s.deliveries[id].payload.management == Some(i.key)
                  && s.deliveries[id].payload.issueBody == body
                  && s.deliveries[id].receipt.Some? && s.deliveries[id].receipt.value.issue == issue)
            && (if i in s.recoveries then s.recoveries[i].recovery == r && s.recoveries[i].issue == issue else body != ""))
      && (t.Success? ==>
            t.value == if i in s.recoveries then s
                       else s.(recoveries := s.recoveries[i := Row(r, issue, body, Waiting, None, None, None, None)],
                               recovering := s.recovering + [i]))
  {
    assert KnownBucket(s, r.identity.key, issue, body) <==>
      exists id <- s.deliveries ::
        && s.deliveries[id].status == Delivered && s.deliveries[id].payload.management == Some(r.identity.key)
        && s.deliveries[id].payload.issueBody == body
        && s.deliveries[id].receipt.Some? && s.deliveries[id].receipt.value.issue == issue by {
      assert forall id <- s.deliveries :: IsBucket(s.deliveries[id], r.identity.key, issue, body) <==>
        && s.deliveries[id].status == Delivered && s.deliveries[id].payload.management == Some(r.identity.key)
        && s.deliveries[id].payload.issueBody == body
        && s.deliveries[id].receipt.Some? && s.deliveries[id].receipt.value.issue == issue;
    }
  }

  /** A recovery's receipt is for a comment on its own issue, claimed and not yet seen, and agrees with any earlier answer. */
  predicate CommentFits(row: Row, r: Receipt) {
    && (row.status == CommentClaimed || row.status == CommentAcknowledged) && row.commentClaim.Some?
    && r.issue == row.issue && r.comment.Some? && r.comment.value >= 1
    && (row.commentReceipt.None? || row.commentReceipt.value == r)
  }

  predicate CloseFits(row: Row, issue: int) {
    && (row.status == CloseClaimed || row.status == CloseAcknowledged) && row.closeClaim.Some?
    && issue == row.issue && (row.closeReceipt.None? || row.closeReceipt.value == issue)
  }

  /** A recovery's way: comment claimed, answered, seen; close claimed, answered, seen; given up only before the close is claimed. */
  predicate Moves(row: Row, data: Data, next: Row) {
    match data
    case ClaimComment(_, intent) =>
      && row.status == Waiting && intent == PostComment(row.issue, row.recovery.commentBody)
      && next == row.(commentClaim := Some(intent), status := CommentClaimed)
    case AckComment(_, r) => CommentFits(row, r) && next == row.(commentReceipt := Some(r), status := CommentAcknowledged)
    case DeliverComment(_, r) => CommentFits(row, r) && next == row.(commentReceipt := Some(r), status := CommentDelivered)
    case ClaimClose(_, intent) =>
      && row.status == CommentDelivered && intent == PatchClosed(row.issue)
      && next == row.(closeClaim := Some(intent), status := CloseClaimed)
    case AckClose(_, issue) => CloseFits(row, issue) && next == row.(closeReceipt := Some(issue), status := CloseAcknowledged)
    case DeliverClose(_, issue) => CloseFits(row, issue) && next == row.(closeReceipt := Some(issue), status := Closed)
    case Abandon(_, why) =>
      && why != "" && row.status in {Waiting, CommentClaimed, CommentAcknowledged, CommentDelivered}
      && next == row.(status := NotApplicable)
    case Outdate(_, why) =>
      && why != "" && row.status in {Waiting, CommentClaimed, CommentAcknowledged, CommentDelivered}
      && next == row.(status := Stale)
    case _ => false
  }

  lemma RowMeans(s: State, id: Identity, data: Data)
    requires data.ClaimComment? || data.AckComment? || data.DeliverComment? || data.ClaimClose? || data.AckClose?
             || data.DeliverClose? || data.Abandon? || data.Outdate?
    requires data.id == id
    ensures Transition(s, data).Success? <==> id in s.recoveries && exists next :: Moves(s.recoveries[id], data, next)
    ensures id in s.recoveries ==>
      forall next | Moves(s.recoveries[id], data, next) :: Transition(s, data) == Success(s.(recoveries := s.recoveries[id := next]))
  {
    if id in s.recoveries {
      var row := s.recoveries[id];
      forall next ensures Moves(row, data, next) <==> NextRow(row, data) == Success(next) {
        NextRowMeans(row, data, next);
      }
      if NextRow(row, data).Success? {
        assert Moves(row, data, NextRow(row, data).value);
      }
    }
  }

  lemma NextRowMeans(row: Row, data: Data, next: Row)
    ensures Moves(row, data, next) <==> NextRow(row, data) == Success(next)
  {
    match data
    case AckComment(_, r) => FitsMean(row, r, 0);
    case DeliverComment(_, r) => FitsMean(row, r, 0);
    case AckClose(_, issue) => FitsMean(row, Receipt(0, None), issue);
    case DeliverClose(_, issue) => FitsMean(row, Receipt(0, None), issue);
    case _ =>
  }

  lemma FitsMean(row: Row, r: Receipt, issue: int)
    ensures CommentReceiptFits(row, r) <==> CommentFits(row, r)
    ensures CloseReceiptFits(row, issue) <==> CloseFits(row, issue)
  {
  }
}
