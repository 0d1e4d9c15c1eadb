/** The receiver itself: a fixed byte array filled in place. */
module Receivers {
  import opened Wrappers
  import opened Bytes
  import opened Staging

  lemma PrefixSlice(bytes: Octets, n: nat, a: nat, b: nat)
    requires a <= b <= n <= |bytes|
    ensures bytes[..n][a..b] == bytes[a..b]
  {
  }

  class Receiver {
    const device: Device
    var requestId: Option<int>
    var identity: Option<ContentIdentity>
    var buffer: array<byte>
    var received: nat
    var transferId: Option<Octets>
    var lastProgressMs: Option<int>
    var delivered: seq<Delivery>

    ghost predicate Valid()
      reads this, buffer
    {
      && requestId.Some? == identity.Some?
      && (requestId.None? ==> transferId.None? && lastProgressMs.None?)
      && (identity.Some? ==> received <= buffer.Length == identity.value.byteLength)
    }

    ghost function View(): Station
      reads this, buffer
      requires Valid()
    {
      Station(if requestId.None? then None
              else Some(Transaction(requestId.value, identity.value, transferId, lastProgressMs, buffer[..received])),
              delivered)
    }

    constructor (device: Device)
      ensures Valid() && fresh(buffer) && this.device == device
      ensures View() == Station(None, [])
    {
      this.device := device;
      requestId, identity, received, transferId, lastProgressMs := None, None, 0, None, None;
      buffer := new byte[0];
      delivered := [];
    }

    method Clear()
      requires Valid()
      modifies this
      ensures Valid() && fresh(buffer)
      ensures View() == old(View()).(transaction := None)
    {
      requestId, identity, received, transferId, lastProgressMs := None, None, 0, None, None;
      buffer := new byte[0];
    }

    method Begin(requestId: int, identity: ContentIdentity) returns (reply: Reply)
      requires Valid()
      modifies this
      ensures Valid() && (buffer == old(buffer) || fresh(buffer))
      ensures Outcome(reply, View()) == Staging.Begin(device, old(View()), requestId, identity)
    {
      if requestId <= 0 || identity.byteLength < 0 || |identity.sha256| != 32 || identity.byteLength > device.maximumBytes {
        return Rejected;
      }
      if this.requestId.Some? {
        if Some(requestId) == this.requestId && Some(identity) == this.identity {
          return Duplicate;
        }
        return Rejected;
      }
      this.requestId, this.identity := Some(requestId), Some(identity);
      buffer := new byte[identity.byteLength];
      received := 0;
      return Accepted;
    }

    method BeginTransfer(requestId: int, transferId: Octets, identity: ContentIdentity, now: int) returns (reply: Reply)
      requires Valid()
      modifies this
      ensures Valid() && (buffer == old(buffer) || fresh(buffer))
      ensures Outcome(reply, View()) == Staging.BeginTransfer(device, old(View()), requestId, transferId, identity, now)
    {
      if |transferId| != 16 || !AnyBit(transferId) || (identity.transferId != [] && identity.transferId != transferId) {
        return Rejected;
      }
      if this.requestId.Some? {
        if Some(requestId) == this.requestId && Some(transferId) == this.transferId && Some(identity) == this.identity {
          return Duplicate;
        }
        return Rejected;
      }
      reply := Begin(requestId, identity);
      if reply != Rejected {
        this.transferId := Some(transferId);
        lastProgressMs := Some(now);
      }
    }

    method Data(requestId: int, offset: nat, chunk: Octets) returns (reply: Reply)
      requires Valid()
      modifies this`received, buffer
      ensures Valid()
      ensures Outcome(reply, View()) == Staging.Data(old(View()), requestId, offset, chunk)
    {
      hide Agrees;
      if this.requestId != Some(requestId) {
        return Rejected;
      }
      if offset > received || offset > identity.value.byteLength {
        return Rejected;
      }
      if |chunk| > identity.value.byteLength - offset {
        return Rejected;
      }
      ghost var staged := buffer[..received];
      var rest, at := chunk, offset;
      if offset < received {
        var overlap := if received - offset < |chunk| then received - offset else |chunk|;
        OverlapVerdict(staged, offset, chunk, overlap);
        PrefixSlice(buffer[..], received, offset, offset + overlap);
        if chunk[..overlap] != buffer[offset..offset + overlap] {
          return Rejected;
        }
        if overlap == |chunk| {
          return Duplicate;
        }
        rest, at := chunk[overlap..], offset + overlap;
      }
      MergedBuffer(staged, offset, chunk, at, rest);
      Write(at, rest);
      received := received + |rest|;
      return Accepted;
    }

    /** `buffer[at:at + len(rest)] = rest` */
    method Write(at: nat, rest: Octets)
      requires at + |rest| <= buffer.Length
      modifies buffer
      ensures buffer[..at + |rest|] == old(buffer[..at]) + rest
    {
      forall k | 0 <= k < |rest| {
        buffer[at + k] := rest[k];
      }
    }

    method DataTransfer(transferId: Octets, offset: nat, chunk: Octets, now: int) returns (reply: Reply)
      requires Valid()
      modifies this`received, this`lastProgressMs, buffer
      ensures Valid()
      ensures Outcome(reply, View()) == Staging.DataTransfer(old(View()), transferId, offset, chunk, now)
    {
      if Some(transferId) != this.transferId {
        return Rejected;
      }
      if chunk == [] {
        return Rejected;
      }
      reply := Data(requestId.value, offset, chunk);
      if reply == Accepted {
        lastProgressMs := Some(now);
      }
    }

    method Commit(requestId: int) returns (reply: Reply)
      requires Valid()
      modifies this
      ensures Valid() && (buffer == old(buffer) || fresh(buffer))
      ensures Outcome(reply, View()) == Staging.Commit(device, old(View()), requestId)
    {
      if this.requestId != Some(requestId) || received != identity.value.byteLength {
        return Rejected;
      }
      if device.sha256(buffer[..]) != identity.value.sha256 {
        assert buffer[..] == buffer[..received];
        Clear();
        return Rejected;
      }
      assert buffer[..] == buffer[..received];
      var answer := device.sink(|delivered|, buffer[..], identity.value);
      delivered := delivered + [Delivery(buffer[..], identity.value)];
      Clear();
      return if answer == SinkAccepts then Committed else Rejected;
    }

    method CommitTransfer(transferId: Octets) returns (reply: Reply)
      requires Valid()
      modifies this
      ensures Valid() && (buffer == old(buffer) || fresh(buffer))
      ensures Outcome(reply, View()) == Staging.CommitTransfer(device, old(View()), transferId)
    {
      if Some(transferId) != this.transferId {
        return Rejected;
      }
      reply := Commit(requestId.value);
    }

    method Abort(requestId: int) returns (reply: Reply)
      requires Valid()
      modifies this
      ensures Valid() && (buffer == old(buffer) || fresh(buffer))
      ensures Outcome(reply, View()) == Staging.Abort(old(View()), requestId)
    {
      if this.requestId != Some(requestId) {
        return Rejected;
      }
      Clear();
      return Aborted;
    }

    method AbortTransfer(requestId: int, transferId: Octets) returns (reply: Reply)
      requires Valid()
      modifies this
      ensures Valid() && (buffer == old(buffer) || fresh(buffer))
      ensures Outcome(reply, View()) == Staging.AbortTransfer(old(View()), requestId, transferId)
    {
      if Some(transferId) != this.transferId {
        return Rejected;
      }
      reply := Abort(requestId);
    }

    method Expire(now: int) returns (expired: bool)
      requires Valid()
      modifies this
      ensures Valid() && (buffer == old(buffer) || fresh(buffer))
      ensures expired == Expired(old(View()), now)
      ensures View() == if expired then old(View()).(transaction := None) else old(View())
    {
      if requestId.None? || lastProgressMs.None? || now < lastProgressMs.value || now - lastProgressMs.value < 5000 {
        return false;
      }
      Clear();
      return true;
    }
  }

  lemma MergedBuffer(staged: Octets, offset: nat, chunk: Octets, at: nat, rest: Octets)
    requires offset <= at == |staged| && at - offset <= |chunk| && rest == chunk[at - offset..]
    requires offset < |staged| ==> Agrees(staged, offset, chunk)
    requires offset + |chunk| > |staged| || chunk == []
    ensures Agrees(staged, offset, chunk)
    ensures staged + rest == Merge(staged, offset, chunk)
  {
    var m := at - offset;
    AgreementIsEquality(staged, offset, chunk, m);
    Associative(staged[..offset], chunk[..m], rest);
    assert chunk[..m] + rest == chunk;
  }

  lemma AgreementIsEquality(staged: Octets, offset: nat, chunk: Octets, m: nat)
    requires offset + m == |staged| && m <= |chunk|
    requires Agrees(staged, offset, chunk)
    ensures staged == staged[..offset] + chunk[..m]
  {
    forall k | offset <= k < |staged| ensures staged[k] == (staged[..offset] + chunk[..m])[k] {
      assert staged[k] == chunk[k - offset];
    }
  }

  lemma OverlapVerdict(staged: Octets, offset: nat, chunk: Octets, overlap: nat)
    requires offset + overlap <= |staged| && overlap <= |chunk|
    requires offset + overlap == |staged| || overlap == |chunk|
    ensures Agrees(staged, offset, chunk) <==> chunk[..overlap] == staged[offset..offset + overlap]
  {
    if chunk[..overlap] != staged[offset..offset + overlap] {
      var k :| 0 <= k < overlap && chunk[..overlap][k] != staged[offset..offset + overlap][k];
      assert staged[offset + k] != chunk[offset + k - offset];
    } else {
      forall k | offset <= k < |staged| && k < offset + |chunk|
        ensures staged[k] == chunk[k - offset]
      {
        assert chunk[..overlap][k - offset] == staged[offset..offset + overlap][k - offset];
      }
    }
  }
}
