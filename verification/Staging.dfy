/** What the ordered staging transaction means, independently of its byte array. */
module Staging {
  import opened Wrappers
  import opened Bytes

  datatype ContentIdentity = ContentIdentity(sha256: Octets, byteLength: int, transferId: Octets)

  datatype Delivery = Delivery(content: Octets, identity: ContentIdentity)

  datatype SinkAnswer = SinkAccepts | SinkRejects | SinkRaises

  /** `Rejected` stands for a raised `ValueError`, or an exception of the sink passed on; `Reported` answers STATUS. */
  datatype Reply = Accepted | Duplicate | Committed | Aborted | Rejected | Reported

  /** SHA-256 and the sink are parameters; the sink may answer its n-th call as it likes. */
  datatype Device = Device(
    maximumBytes: int,
    sha256: Octets -> Octets,
    sink: (nat, Octets, ContentIdentity) -> SinkAnswer)

  /** `staged` is the received prefix of the declared content. */
  datatype Transaction = Transaction(
    requestId: int,
    identity: ContentIdentity,
    transferId: Option<Octets>,
    lastProgressMs: Option<int>,
    staged: Octets)

  /** A receiver: its open transaction, and everything ever handed to the sink. */
  datatype Station = Station(transaction: Option<Transaction>, delivered: seq<Delivery>)

  datatype Outcome = Outcome(reply: Reply, station: Station)

  predicate AnyBit(data: Octets) {
    exists b <- data :: b != 0
  }

  predicate Supported(device: Device, requestId: int, identity: ContentIdentity) {
    && requestId > 0
    && 0 <= identity.byteLength <= device.maximumBytes
    && |identity.sha256| == 32
  }

  function Begun(s: Station, requestId: int, identity: ContentIdentity,
                 transferId: Option<Octets>, now: Option<int>): Outcome
  {
    Outcome(Accepted, s.(transaction := Some(Transaction(requestId, identity, transferId, now, []))))
  }

  function Begin(device: Device, s: Station, requestId: int, identity: ContentIdentity): Outcome {
    if !Supported(device, requestId, identity) then
      Outcome(Rejected, s)
    else if s.transaction.Some? then
      var t := s.transaction.value;
      Outcome(if t.requestId == requestId && t.identity == identity then Duplicate else Rejected, s)
    else
      Begun(s, requestId, identity, None, None)
  }

  predicate ValidTransferId(transferId: Octets, identity: ContentIdentity) {
    |transferId| == 16 && AnyBit(transferId) && (identity.transferId == [] || identity.transferId == transferId)
  }

  function BeginTransfer(device: Device, s: Station, requestId: int, transferId: Octets,
                         identity: ContentIdentity, now: int): Outcome
  {
    if !ValidTransferId(transferId, identity) then
      Outcome(Rejected, s)
    else if s.transaction.Some? then
      var t := s.transaction.value;
      Outcome(if t.requestId == requestId && t.transferId == Some(transferId) && t.identity == identity
              then Duplicate else Rejected, s)
    else if Supported(device, requestId, identity) then
      Begun(s, requestId, identity, Some(transferId), Some(now))
    else
      Outcome(Rejected, s)
  }

  /** The part of `chunk` below the staged length repeats what is staged there. */
  predicate Agrees(staged: Octets, offset: nat, chunk: Octets) {
    forall k | offset <= k < |staged| && k < offset + |chunk| :: staged[k] == chunk[k - offset]
  }

  /** Acceptable data: in bounds, no gap, no conflict with what is staged. */
  predicate Fits(t: Transaction, offset: nat, chunk: Octets) {
    && offset <= |t.staged|
    && offset + |chunk| <= t.identity.byteLength
    && Agrees(t.staged, offset, chunk)
  }

  function Merge(staged: Octets, offset: nat, chunk: Octets): Octets
    requires offset <= |staged|
  {
    if offset + |chunk| <= |staged| then staged else staged[..offset] + chunk
  }

  function Data(s: Station, requestId: int, offset: nat, chunk: Octets): Outcome {
    if s.transaction.None? || s.transaction.value.requestId != requestId || !Fits(s.transaction.value, offset, chunk) then
      Outcome(Rejected, s)
    else
      var t := s.transaction.value;
      var repeated := offset < |t.staged| && offset + |chunk| <= |t.staged|;
      Outcome(if repeated then Duplicate else Accepted,
              s.(transaction := Some(t.(staged := Merge(t.staged, offset, chunk)))))
  }

  predicate Addresses(s: Station, transferId: Octets) {
    s.transaction.Some? && s.transaction.value.transferId == Some(transferId)
  }

  function DataTransfer(s: Station, transferId: Octets, offset: nat, chunk: Octets, now: int): Outcome {
    if !Addresses(s, transferId) || chunk == [] then
      Outcome(Rejected, s)
    else
      var o := Data(s, s.transaction.value.requestId, offset, chunk);
      if o.reply == Accepted then
        Outcome(Accepted, o.station.(transaction := Some(o.station.transaction.value.(lastProgressMs := Some(now)))))
      else
        o
  }

  /** A complete commit ends the transaction whatever follows; only matching content reaches the sink. */
  function Commit(device: Device, s: Station, requestId: int): Outcome {
    if s.transaction.None? || s.transaction.value.requestId != requestId
       || |s.transaction.value.staged| != s.transaction.value.identity.byteLength
    then
      Outcome(Rejected, s)
    else
      var t := s.transaction.value;
      if device.sha256(t.staged) != t.identity.sha256 then
        Outcome(Rejected, s.(transaction := None))
      else
        var answer := device.sink(|s.delivered|, t.staged, t.identity);
        Outcome(if answer == SinkAccepts then Committed else Rejected,
                Station(None, s.delivered + [Delivery(t.staged, t.identity)]))
  }

  function CommitTransfer(device: Device, s: Station, transferId: Octets): Outcome {
    if Addresses(s, transferId) then Commit(device, s, s.transaction.value.requestId) else Outcome(Rejected, s)
  }

  function Abort(s: Station, requestId: int): Outcome {
    if s.transaction.Some? && s.transaction.value.requestId == requestId then
      Outcome(Aborted, s.(transaction := None))
    else
      Outcome(Rejected, s)
  }

  /** The source passes the wire request ID on, so only BEGIN's own ID ends the transaction. */
  function AbortTransfer(s: Station, requestId: int, transferId: Octets): Outcome {
    if Addresses(s, transferId) then Abort(s, requestId) else Outcome(Rejected, s)
  }

  predicate Expired(s: Station, now: int) {
    && s.transaction.Some?
    && s.transaction.value.lastProgressMs.Some?
    && now - s.transaction.value.lastProgressMs.value >= 5000
  }

  // ---------------------------------------------------------------- what reaches the sink

  /** The content is as long as declared, within the device's limit, and has the declared digest. */
  predicate Checked(device: Device, d: Delivery) {
    && device.sha256(d.content) == d.identity.sha256
    && |d.content| == d.identity.byteLength <= device.maximumBytes
  }

  /** An open transaction is for a content within the limit, and has not staged more than that. */
  predicate Bounded(device: Device, s: Station) {
    s.transaction.Some? ==>
      var t := s.transaction.value;
      |t.staged| <= t.identity.byteLength <= device.maximumBytes && |t.identity.sha256| == 32 && t.requestId > 0
  }

  /** Every call on a receiver, by the open request or by the transfer it names; `Tick` looks at the clock. */
  datatype Call =
    | Opening(requestId: int, identity: ContentIdentity)
    | OpeningTransfer(requestId: int, transferId: Octets, identity: ContentIdentity, now: int)
    | Feeding(requestId: int, offset: nat, chunk: Octets)
    | FeedingTransfer(transferId: Octets, offset: nat, chunk: Octets, now: int)
    | Committing(requestId: int)
    | CommittingTransfer(transferId: Octets)
    | Aborting(requestId: int)
    | AbortingTransfer(requestId: int, transferId: Octets)
    | Tick(now: int)

  function Perform(device: Device, s: Station, call: Call): Station {
    match call
    case Opening(requestId, identity) => Begin(device, s, requestId, identity).station
    case OpeningTransfer(requestId, transferId, identity, now) => BeginTransfer(device, s, requestId, transferId, identity, now).station
    case Feeding(requestId, offset, chunk) => Data(s, requestId, offset, chunk).station
    case FeedingTransfer(transferId, offset, chunk, now) => DataTransfer(s, transferId, offset, chunk, now).station
    case Committing(requestId) => Commit(device, s, requestId).station
    case CommittingTransfer(transferId) => CommitTransfer(device, s, transferId).station
    case Aborting(requestId) => Abort(s, requestId).station
    case AbortingTransfer(requestId, transferId) => AbortTransfer(s, requestId, transferId).station
    case Tick(now) => if Expired(s, now) then s.(transaction := None) else s
  }

  /**
   * One call: at most one content reaches the sink, only by a commit and only checked, under the identity that was
   * declared, and then the transaction is over. An open transaction is replaced by no call.
   */
  lemma CallIsChecked(device: Device, s: Station, call: Call)
    requires Bounded(device, s)
    ensures var t := Perform(device, s, call);
      && Bounded(device, t)
      && (t.delivered == s.delivered
          || (&& (call.Committing? || call.CommittingTransfer?) && s.transaction.Some? && t.transaction.None?
              && var d := Delivery(s.transaction.value.staged, s.transaction.value.identity);
              Checked(device, d) && t.delivered == s.delivered + [d]))
      && (s.transaction.Some? && t.transaction.Some? ==>
            t.transaction.value == s.transaction.value.(staged := t.transaction.value.staged, lastProgressMs := t.transaction.value.lastProgressMs))
  {
  }

  /**
   * A transaction is begun within the device's limits, under a positive request and a digest of 32 bytes; while one is
   * open the same begin is a duplicate, and any other is refused without effect.
   */
  lemma BeginMeans(device: Device, s: Station, requestId: int, transferId: Octets, identity: ContentIdentity, now: int)
    ensures var o, t := Begin(device, s, requestId, identity), Transaction(requestId, identity, None, None, []);
      var fits := requestId >= 1 && identity.byteLength >= 0 && identity.byteLength <= device.maximumBytes && |identity.sha256| == 32;
      if fits && s.transaction.None? then o == Outcome(Accepted, Station(Some(t), s.delivered))
      else
        o.station == s
        && o.reply == if fits && s.transaction.value.requestId == requestId && s.transaction.value.identity == identity then Duplicate else Rejected
    ensures var o, t := BeginTransfer(device, s, requestId, transferId, identity, now),
                        Transaction(requestId, identity, Some(transferId), Some(now), []);
      var named := |transferId| == 16 && (exists b <- transferId :: b != 0) && (identity.transferId == [] || identity.transferId == transferId);
      var fits := requestId >= 1 && identity.byteLength >= 0 && identity.byteLength <= device.maximumBytes && |identity.sha256| == 32;
      if s.transaction.None? then
        o == if named && fits then Outcome(Accepted, Station(Some(t), s.delivered)) else Outcome(Rejected, s)
      else
        var open := s.transaction.value;
        o == Outcome(if named && open.requestId == requestId && open.transferId == Some(transferId) && open.identity == identity
                     then Duplicate else Rejected, s)
  {
  }

  /**
   * DATA for the open request. It is refused without effect when it leaves a gap, passes the declared length, or says
   * another byte than what is staged; a chunk that only repeats is a duplicate; otherwise what is new of it is appended.
   */
  lemma DataMeans(s: Station, requestId: int, offset: nat, chunk: Octets)
    ensures s.transaction.None? || s.transaction.value.requestId != requestId ==> Data(s, requestId, offset, chunk) == Outcome(Rejected, s)
    ensures s.transaction.Some? && s.transaction.value.requestId == requestId ==>
      var o, t := Data(s, requestId, offset, chunk), s.transaction.value;
      var n, end := |t.staged|, offset + |chunk|;
      if offset > n || end > t.identity.byteLength || (exists i :: 0 <= i < |chunk| && offset + i < n && chunk[i] != t.staged[offset + i])
      then o == Outcome(Rejected, s)
      else if offset < n && end <= n then o == Outcome(Duplicate, s)
      else o == Outcome(Accepted, Station(Some(t.(staged := t.staged + chunk[n - offset..])), s.delivered))
  {
    if s.transaction.Some? && s.transaction.value.requestId == requestId {
      var t := s.transaction.value;
      var n := |t.staged|;
      if offset <= n {
        assert Agrees(t.staged, offset, chunk)
          <==> forall i :: 0 <= i < |chunk| && offset + i < n ==> chunk[i] == t.staged[offset + i] by {
          if Agrees(t.staged, offset, chunk) {
            forall i | 0 <= i < |chunk| && offset + i < n ensures chunk[i] == t.staged[offset + i] {
              assert t.staged[offset + i] == chunk[offset + i - offset];
            }
          }
        }
        if Fits(t, offset, chunk) && n <= offset + |chunk| {
          assert Merge(t.staged, offset, chunk) == t.staged + chunk[n - offset..];
        }
      }
    }
  }

  /** A transfer is fed by its name and by chunks that are not empty; data accepted so also moves its clock. */
  lemma DataTransferMeans(s: Station, transferId: Octets, offset: nat, chunk: Octets, now: int)
    ensures var o := DataTransfer(s, transferId, offset, chunk, now);
      if s.transaction.None? || s.transaction.value.transferId != Some(transferId) || chunk == [] then o == Outcome(Rejected, s)
      else
        var fed := Data(s, s.transaction.value.requestId, offset, chunk);
        if fed.reply != Accepted then o == fed
        else o == Outcome(Accepted, Station(Some(fed.station.transaction.value.(lastProgressMs := Some(now))), s.delivered))
  {
  }

  /** Nothing is committed or ended but the open transaction, by its request or its transfer; incomplete content stays open. */
  lemma EndMeans(device: Device, s: Station, requestId: int, transferId: Octets)
    ensures s.transaction.None? || s.transaction.value.requestId != requestId ==>
      Commit(device, s, requestId) == Outcome(Rejected, s) && Abort(s, requestId) == Outcome(Rejected, s)
    ensures s.transaction.Some? && |s.transaction.value.staged| != s.transaction.value.identity.byteLength ==>
      Commit(device, s, requestId) == Outcome(Rejected, s)
    ensures s.transaction.Some? && s.transaction.value.requestId == requestId ==>
      Abort(s, requestId) == Outcome(Aborted, Station(None, s.delivered))
    ensures s.transaction.None? || s.transaction.value.transferId != Some(transferId) ==>
      CommitTransfer(device, s, transferId) == AbortTransfer(s, requestId, transferId) == Outcome(Rejected, s)
    ensures s.transaction.Some? && s.transaction.value.transferId == Some(transferId) ==>
      && CommitTransfer(device, s, transferId) == Commit(device, s, s.transaction.value.requestId)
      && AbortTransfer(s, requestId, transferId) == Abort(s, requestId)
  {
  }

  /** Only a transfer expires, once five seconds have passed since it was begun or last took new data. */
  lemma ExpiryMeans(device: Device, s: Station, now: int)
    ensures var t := Perform(device, s, Tick(now));
      if s.transaction.Some? && s.transaction.value.lastProgressMs.Some? && now >= s.transaction.value.lastProgressMs.value + 5000
      then t == Station(None, s.delivered) else t == s
  {
  }

  /** A complete commit: matching content is handed over once, any other is dropped; either way the transaction is over. */
  lemma CompleteCommit(device: Device, s: Station, requestId: int)
    requires s.transaction.Some? && s.transaction.value.requestId == requestId
    requires |s.transaction.value.staged| == s.transaction.value.identity.byteLength
    ensures var t, o := s.transaction.value, Commit(device, s, requestId);
      && o.station.transaction.None?
      && (device.sha256(t.staged) != t.identity.sha256 <==> o.station.delivered == s.delivered)
      && (device.sha256(t.staged) != t.identity.sha256 ==> o.reply == Rejected)
      && (device.sha256(t.staged) == t.identity.sha256 ==>
            && o.station.delivered == s.delivered + [Delivery(t.staged, t.identity)]
            && (o.reply == Committed <==> device.sink(|s.delivered|, t.staged, t.identity) == SinkAccepts))
  {
    var t := s.transaction.value;
    assert (s.delivered + [Delivery(t.staged, t.identity)])[..|s.delivered|] == s.delivered;
    assert |s.delivered + [Delivery(t.staged, t.identity)]| == |s.delivered| + 1;
  }

  function RunCalls(device: Device, s: Station, calls: seq<Call>): Station
    decreases |calls|
  {
    if calls == [] then s else RunCalls(device, Perform(device, s, calls[0]), calls[1..])
  }

  /** Over any calls in any order, everything that reaches the sink is checked. */
  lemma {:induction false} DeliveriesAreChecked(device: Device, s: Station, calls: seq<Call>)
    requires Bounded(device, s) && forall d <- s.delivered :: Checked(device, d)
    ensures var t := RunCalls(device, s, calls);
      Bounded(device, t) && s.delivered <= t.delivered && forall d <- t.delivered :: Checked(device, d)
    decreases |calls|
  {
    hide Perform, Bounded, Checked;
    if calls != [] {
      CallIsChecked(device, s, calls[0]);
      DeliveriesAreChecked(device, Perform(device, s, calls[0]), calls[1..]);
    }
  }

  // ---------------------------------------------------------------- runs of DATA calls

  datatype DataCall =
    | ByRequest(requestId: int, offset: nat, chunk: Octets)
    | ByTransfer(transferId: Octets, offset: nat, chunk: Octets, now: int)

  function Offer(s: Station, call: DataCall): Outcome {
    match call
    case ByRequest(requestId, offset, chunk) => Data(s, requestId, offset, chunk)
    case ByTransfer(transferId, offset, chunk, now) => DataTransfer(s, transferId, offset, chunk, now)
  }

  function RunData(s: Station, calls: seq<DataCall>): Station
    decreases |calls|
  {
    if calls == [] then s else RunData(Offer(s, calls[0]).station, calls[1..])
  }

  lemma {:induction false} RunDataSnoc(s: Station, calls: seq<DataCall>, call: DataCall)
    ensures RunData(s, calls + [call]) == Offer(RunData(s, calls), call).station
    decreases |calls|
  {
    if calls == [] {
      assert calls + [call] == [call];
    } else {
      assert (calls + [call])[1..] == calls[1..] + [call];
      RunDataSnoc(Offer(s, calls[0]).station, calls[1..], call);
    }
  }

  /** The same open transaction, with nothing staged lost or changed and nothing delivered. */
  predicate StagesMore(s: Station, r: Station) {
    && r.delivered == s.delivered
    && s.transaction.Some? && r.transaction.Some?
    && var t, u := s.transaction.value, r.transaction.value;
    && u == t.(staged := u.staged, lastProgressMs := u.lastProgressMs)
    && t.staged <= u.staged
  }

  predicate WithinDeclared(s: Station) {
    s.transaction.Some? && |s.transaction.value.staged| <= s.transaction.value.identity.byteLength
  }

  /** One call: it is rejected or repeated without effect, or its chunk becomes the end of what is staged. */
  predicate Effective(s: Station, call: DataCall) {
    var o := Offer(s, call);
    if o.reply == Accepted then
      && StagesMore(s, o.station)
      && call.offset <= |s.transaction.value.staged|
      && o.station.transaction.value.staged == s.transaction.value.staged[..call.offset] + call.chunk
      && o.station.transaction.value.lastProgressMs
         == (if call.ByTransfer? then Some(call.now) else s.transaction.value.lastProgressMs)
    else
      && o.station == s
      && (o.reply == Duplicate || o.reply == Rejected)
      && (o.reply == Duplicate ==>
            && call.offset + |call.chunk| <= |s.transaction.value.staged|
            && s.transaction.value.staged[call.offset..call.offset + |call.chunk|] == call.chunk)
  }

  lemma OfferIsEffective(s: Station, call: DataCall)
    requires WithinDeclared(s)
    ensures Effective(s, call) && StagesMore(s, Offer(s, call).station) && WithinDeclared(Offer(s, call).station)
  {
    var t := s.transaction.value;
    if Offer(s, call).reply == Accepted {
      assert Fits(t, call.offset, call.chunk);
      var merged := Merge(t.staged, call.offset, call.chunk);
      assert forall k | call.offset <= k < |t.staged| :: t.staged[k] == call.chunk[k - call.offset];
      assert t.staged <= merged;
    }
  }

  /**
   * Duplicates, overlaps, conflicts and gaps in any order, by either kind of call: staged bytes are never lost or
   * changed, a call that is not accepted changes nothing, and an accepted one stages exactly its chunk.
   */
  lemma {:induction false} StagingOnlyGrows(s: Station, calls: seq<DataCall>)
    requires WithinDeclared(s)
    ensures StagesMore(s, RunData(s, calls)) && WithinDeclared(RunData(s, calls))
    ensures forall i | 0 <= i < |calls| :: Effective(RunData(s, calls[..i]), calls[i])
    decreases |calls|
  {
    hide Offer, Effective;
    if calls != [] {
      var n := |calls| - 1;
      assert calls == calls[..n] + [calls[n]];
      StagingOnlyGrows(s, calls[..n]);
      RunDataSnoc(s, calls[..n], calls[n]);
      OfferIsEffective(RunData(s, calls[..n]), calls[n]);
      forall i | 0 <= i < |calls| ensures Effective(RunData(s, calls[..i]), calls[i]) {
        if i < n {
          assert calls[..n][..i] == calls[..i] && calls[..n][i] == calls[i];
        }
      }
    }
  }

  predicate Slice(call: DataCall, content: Octets) {
    call.offset + |call.chunk| <= |content| && call.chunk == content[call.offset..call.offset + |call.chunk|]
  }

  /** The call names the open transaction the way its kind requires. */
  predicate Reaches(t: Transaction, call: DataCall) {
    match call
    case ByRequest(requestId, _, _) => requestId == t.requestId
    case ByTransfer(transferId, _, chunk, _) => t.transferId == Some(transferId) && chunk != []
  }

  /** Chunks of one content stage a prefix of that content, and none of them is rejected but for a gap before it. */
  lemma {:induction false} SlicesStageAPrefix(s: Station, calls: seq<DataCall>, content: Octets)
    requires s.transaction.Some? && s.transaction.value.identity.byteLength == |content|
    requires s.transaction.value.staged <= content
    requires forall c <- calls :: Slice(c, content) && Reaches(s.transaction.value, c)
    ensures WithinDeclared(RunData(s, calls)) && RunData(s, calls).transaction.value.staged <= content
    ensures forall i | 0 <= i < |calls| ::
      var before := RunData(s, calls[..i]);
      before.transaction.Some? && (Offer(before, calls[i]).reply == Rejected <==> calls[i].offset > |before.transaction.value.staged|)
    decreases |calls|
  {
    hide Offer;
    if calls != [] {
      var n := |calls| - 1;
      var before, c := RunData(s, calls[..n]), calls[n];
      assert calls == calls[..n] + [c];
      forall x | x in calls[..n] ensures Slice(x, content) && Reaches(s.transaction.value, x) {
        assert x in calls;
      }
      SlicesStageAPrefix(s, calls[..n], content);
      StagingOnlyGrows(s, calls[..n]);
      RunDataSnoc(s, calls[..n], c);
      SliceFits(before, c, content);
      forall i | 0 <= i < |calls|
        ensures var b := RunData(s, calls[..i]);
          b.transaction.Some? && (Offer(b, calls[i]).reply == Rejected <==> calls[i].offset > |b.transaction.value.staged|)
      {
        if i < n {
          assert calls[..n][..i] == calls[..i] && calls[..n][i] == calls[i];
        }
      }
    }
  }

  lemma SliceFits(s: Station, c: DataCall, content: Octets)
    requires s.transaction.Some? && s.transaction.value.identity.byteLength == |content|
    requires s.transaction.value.staged <= content
    requires Slice(c, content) && Reaches(s.transaction.value, c)
    ensures Offer(s, c).reply == Rejected <==> c.offset > |s.transaction.value.staged|
    ensures WithinDeclared(Offer(s, c).station) && Offer(s, c).station.transaction.value.staged <= content
  {
    var t := s.transaction.value;
    if c.offset <= |t.staged| {
      assert Agrees(t.staged, c.offset, c.chunk);
      assert Merge(t.staged, c.offset, c.chunk) <= content;
    }
  }
}
