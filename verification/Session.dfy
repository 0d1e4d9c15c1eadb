/** Nonce and exact-next request sequencing around the receiver, and the opcode dispatch in front of it. */
module Sessions {
  import opened Wrappers
  import opened Bytes
  import opened Frames
  import opened Staging
  import Receivers

  const LAST_REQUEST_ID := 0xFFFF_FFFF
  const NO_NONCE: Octets := [0, 0, 0, 0, 0, 0, 0, 0, 0, 0, 0, 0, 0, 0, 0, 0]

  /** `nextRequestId == 0` means that the request IDs of this session are used up. */
  datatype SessionView = SessionView(station: Station, nonce: Option<Octets>, nextRequestId: nat)

  datatype SessionOutcome = SessionOutcome(reply: Reply, session: SessionView)

  function Greet(s: SessionView, requestId: int, nonce: Octets, candidate: Octets): SessionOutcome {
    if requestId != 1 || nonce != NO_NONCE || |candidate| != 16 || !AnyBit(candidate) then
      SessionOutcome(Rejected, s)
    else
      SessionOutcome(Accepted, SessionView(s.station.(transaction := None), Some(candidate), 2))
  }

  predicate Authorized(s: SessionView, requestId: int, nonce: Octets) {
    s.nonce == Some(nonce) && s.nextRequestId != 0 && requestId == s.nextRequestId
  }

  /** An authorised request consumes its ID even when the receiver then rejects it. */
  function After(s: SessionView, o: Outcome): SessionOutcome {
    SessionOutcome(o.reply, SessionView(o.station, s.nonce, if s.nextRequestId == LAST_REQUEST_ID then 0 else s.nextRequestId + 1))
  }

  /** One frame arriving at the device: its clock, the nonce its source would offer, and whether the host is armed. */
  datatype Arrival = Arrival(frame: Frame, now: int, candidate: Octets, armed: bool)

  /**
   * Payloads of the wrong shape never reach the session, and neither does a BEGIN while the host is not armed. STATUS
   * is answered outside it.
   */
  function Handle(device: Device, s: SessionView, a: Arrival): SessionOutcome {
    var f := a.frame;
    var p := f.payload;
    if f.opcode == 1 then
      if p == [] then Greet(s, f.requestId, f.nonce, a.candidate) else SessionOutcome(Rejected, s)
    else if f.opcode == 2 then
      SessionOutcome(if p == [] then Reported else Rejected, s)
    else if !ReachesSession(a) || !Authorized(s, f.requestId, f.nonce) then
      SessionOutcome(Rejected, s)
    else if f.opcode == 3 then
      var identity := ContentIdentity(p[24..56], Unpack(p[16..24]), p[..16]);
      After(s, Staging.BeginTransfer(device, s.station, f.requestId, p[..16], identity, a.now))
    else if f.opcode == 4 then
      After(s, Staging.DataTransfer(s.station, p[..16], Unpack(p[16..24]), p[24..], a.now))
    else if f.opcode == 5 then
      After(s, Staging.CommitTransfer(device, s.station, p))
    else
      After(s, Staging.AbortTransfer(s.station, f.requestId, p))
  }

  predicate WellFormed(f: Frame) {
    || (f.opcode == 3 && |f.payload| == 56)
    || (f.opcode == 4 && |f.payload| >= 25)
    || (f.opcode == 5 && |f.payload| == 16)
    || (f.opcode == 6 && |f.payload| == 16)
  }

  predicate ReachesSession(a: Arrival) {
    WellFormed(a.frame) && (a.frame.opcode == 3 ==> a.armed)
  }

  datatype Served = Served(replies: seq<Reply>, session: SessionView)

  function Serve(device: Device, s: SessionView, arrivals: seq<Arrival>): Served
    decreases |arrivals|
  {
    if arrivals == [] then
      Served([], s)
    else
      var first := Handle(device, s, arrivals[0]);
      var rest := Serve(device, first.session, arrivals[1..]);
      Served([first.reply] + rest.replies, rest.session)
  }

  lemma {:induction false} ServeAppend(device: Device, s: SessionView, a: seq<Arrival>, b: seq<Arrival>)
    ensures var x := Serve(device, s, a);
      var y := Serve(device, x.session, b);
      Serve(device, s, a + b) == Served(x.replies + y.replies, y.session)
    decreases |a|
  {
    if a == [] {
      assert a + b == b;
      var y := Serve(device, s, b);
      assert [] + y.replies == y.replies;
    } else {
      assert (a + b)[1..] == a[1..] + b;
      var first := Handle(device, s, a[0]);
      ServeAppend(device, first.session, a[1..], b);
      var x := Serve(device, first.session, a[1..]);
      Associative([first.reply], x.replies, Serve(device, x.session, b).replies);
    }
  }

  // ---------------------------------------------------------------- what each frame is taken for

  /** A greeting is request 1 under the zero nonce; it drops any transaction and starts the offered nonce at request 2. */
  lemma GreetingMeans(device: Device, s: SessionView, a: Arrival)
    requires a.frame.opcode == 1
    ensures var o := Handle(device, s, a);
      && (o.reply == Accepted <==>
            && a.frame.payload == [] && a.frame.requestId == 1 && |a.frame.nonce| == 16 && (forall b <- a.frame.nonce :: b == 0)
            && |a.candidate| == 16 && exists b <- a.candidate :: b != 0)
      && (o.reply == Accepted ==> o.session == SessionView(Station(None, s.station.delivered), Some(a.candidate), 2))
      && (o.reply != Accepted ==> o.reply == Rejected && o.session == s)
  {
    if |a.frame.nonce| == 16 && forall b <- a.frame.nonce :: b == 0 {
      assert forall i | 0 <= i < 16 :: a.frame.nonce[i] in a.frame.nonce;
      assert a.frame.nonce == NO_NONCE;
    }
  }

  /** BEGIN carries 56 bytes and needs an armed host, DATA at least 25, COMMIT and ABORT 16; nothing else is a request. */
  predicate IsRequest(a: Arrival) {
    match a.frame.opcode
    case 3 => |a.frame.payload| == 56 && a.armed
    case 4 => |a.frame.payload| >= 25
    case 5 => |a.frame.payload| == 16
    case 6 => |a.frame.payload| == 16
    case _ => false
  }

  /** A request uses up its identity exactly when it is the next one under the current nonce; any other frame changes nothing. */
  lemma RequestMeans(device: Device, s: SessionView, a: Arrival)
    requires a.frame.opcode != 1
    ensures var o, f := Handle(device, s, a), a.frame;
      if IsRequest(a) && s.nonce == Some(f.nonce) && s.nextRequestId != 0 && f.requestId == s.nextRequestId then
        && o.session.nonce == s.nonce
        && o.session.nextRequestId == if f.requestId == 4294967295 then 0 else f.requestId + 1
      else
        o.session == s && o.reply == if f.opcode == 2 && f.payload == [] then Reported else Rejected
  {
  }

  // ---------------------------------------------------------------- safety of every run

  /** The IDs of the requests that pass authorisation, in order. */
  function Admitted(device: Device, s: SessionView, arrivals: seq<Arrival>): seq<int>
    decreases |arrivals|
  {
    if arrivals == [] then
      []
    else
      var f := arrivals[0].frame;
      (if f.opcode != 1 && ReachesSession(arrivals[0]) && Authorized(s, f.requestId, f.nonce) then [f.requestId] else [])
      + Admitted(device, Handle(device, s, arrivals[0]).session, arrivals[1..])
  }

  predicate Consecutive(ids: seq<int>, start: int) {
    forall i | 0 <= i < |ids| :: ids[i] == start + i && ids[i] <= LAST_REQUEST_ID
  }

  /** Between greetings the admitted request IDs are consecutive, so no recorded frame is ever served twice. */
  lemma {:induction false} AdmittedAreConsecutive(device: Device, s: SessionView, arrivals: seq<Arrival>)
    requires s.nextRequestId <= LAST_REQUEST_ID
    requires forall a <- arrivals :: a.frame.opcode != 1
    ensures s.nextRequestId == 0 ==> Admitted(device, s, arrivals) == []
    ensures Consecutive(Admitted(device, s, arrivals), s.nextRequestId)
    decreases |arrivals|
  {
    if arrivals != [] {
      var f := arrivals[0].frame;
      assert arrivals[0] in arrivals;
      var next := Handle(device, s, arrivals[0]).session;
      AdmittedAreConsecutive(device, next, arrivals[1..]);
      var later := Admitted(device, next, arrivals[1..]);
      if ReachesSession(arrivals[0]) && Authorized(s, f.requestId, f.nonce) {
        assert Consecutive([f.requestId] + later, s.nextRequestId);
      } else {
        assert next == s;
        assert [] + later == later;
      }
    }
  }

  /** Every open transaction was begun with an ID below the next one. */
  predicate Sound(s: SessionView) {
    && s.nextRequestId <= LAST_REQUEST_ID
    && (s.station.transaction.Some? ==>
          s.nextRequestId == 0 || s.station.transaction.value.requestId < s.nextRequestId)
  }

  /**
   * `abort_transfer` compares the wire request ID with BEGIN's ID, which the session has already passed:
   * in every run, no request is ever answered as aborted, and an ABORT leaves the transaction open.
   */
  lemma {:induction false} AbortNeverSucceeds(device: Device, s: SessionView, arrivals: seq<Arrival>)
    requires Sound(s)
    ensures var served := Serve(device, s, arrivals);
      && Sound(served.session)
      && |served.replies| == |arrivals|
      && forall i | 0 <= i < |arrivals| :: served.replies[i] != Aborted
    ensures arrivals != [] && arrivals[0].frame.opcode == 6 ==>
      Handle(device, s, arrivals[0]).session.station == s.station
    decreases |arrivals|
  {
    if arrivals != [] {
      AbortNeverSucceeds(device, Handle(device, s, arrivals[0]).session, arrivals[1..]);
    }
  }

  /** Any ABORT that is authorized and names the open transfer uses up its request ID, is rejected, and aborts nothing. */
  lemma AuthorizedAbortFails(device: Device, s: SessionView, transferId: Octets, a: Arrival)
    requires Sound(s) && s.nonce.Some? && s.nextRequestId != 0 && |transferId| == 16 && Addresses(s.station, transferId)
    requires a.frame == Frame(6, s.nextRequestId, s.nonce.value, transferId, VERSION)
    ensures var o := Handle(device, s, a);
      && Authorized(s, a.frame.requestId, a.frame.nonce)
      && o.reply == Rejected && o.session.station == s.station && o.session.nextRequestId != s.nextRequestId
  {
  }

  const WITNESS_ID: Octets := seq(16, _ => 1 as byte)
  const GREETING := Arrival(Frame(1, 1, NO_NONCE, [], VERSION), 0, WITNESS_ID, true)
  const BEGINNING :=
    Arrival(Frame(3, 2, WITNESS_ID, WITNESS_ID + Pack(0, 8) + seq(32, _ => 0 as byte), VERSION), 0, WITNESS_ID, true)
  const ABORTING := Arrival(Frame(6, 3, WITNESS_ID, WITNESS_ID, VERSION), 0, WITNESS_ID, true)

  lemma HelloGreets(device: Device, s: SessionView)
    requires s == SessionView(Station(None, []), None, 1)
    ensures Handle(device, s, GREETING) == SessionOutcome(Accepted, SessionView(Station(None, []), Some(WITNESS_ID), 2))
  {
    assert WITNESS_ID[0] in WITNESS_ID;
  }

  lemma BeginOpens(device: Device, s: SessionView)
    requires device.maximumBytes >= 0 && s == SessionView(Station(None, []), Some(WITNESS_ID), 2)
    ensures var o := Handle(device, s, BEGINNING);
      && o.reply == Accepted && o.session.nonce == Some(WITNESS_ID) && o.session.nextRequestId == 3
      && Addresses(o.session.station, WITNESS_ID) && o.session.station.transaction.value.requestId == 2
  {
    var p := BEGINNING.frame.payload;
    assert p[..16] == WITNESS_ID && p[16..24] == Pack(0, 8) && |p| == 56;
    assert WITNESS_ID[0] in WITNESS_ID;
    Widths();
    UnpackPack(0, 8);
  }

  /** Such an ABORT exists in a run from a new session: greet, begin, abort. */
  lemma {:induction false} AbortWitness(device: Device)
    requires device.maximumBytes >= 0
    ensures var served := Serve(device, SessionView(Station(None, []), None, 1), [GREETING, BEGINNING, ABORTING]);
      && served.replies == [Accepted, Accepted, Rejected]
      && served.session.station.transaction.Some? && served.session.nextRequestId == 4
  {
    hide GREETING, BEGINNING;
    var first := SessionView(Station(None, []), None, 1);
    HelloGreets(device, first);
    var greeted := Handle(device, first, GREETING).session;
    BeginOpens(device, greeted);
    var begun := Handle(device, greeted, BEGINNING).session;
    AuthorizedAbortFails(device, begun, WITNESS_ID, ABORTING);
    var arrivals := [GREETING, BEGINNING, ABORTING];
    assert arrivals[1..] == [BEGINNING, ABORTING] && [BEGINNING, ABORTING][1..] == [ABORTING] && [ABORTING][1..] == [];
    assert Serve(device, begun, [ABORTING]).replies == [Rejected];
    assert Serve(device, greeted, [BEGINNING, ABORTING]).replies == [Accepted] + [Rejected];
  }

  // ---------------------------------------------------------------- what reaches the sink

  /** The receiver calls one frame can amount to. */
  lemma FrameIsCall(device: Device, s: SessionView, a: Arrival)
    ensures var t := Handle(device, s, a).session.station;
      t == s.station || t == s.station.(transaction := None) || exists call :: t == Perform(device, s.station, call)
  {
    var f, p := a.frame, a.frame.payload;
    if f.opcode != 1 && f.opcode != 2 && ReachesSession(a) && Authorized(s, f.requestId, f.nonce) {
      var t := Handle(device, s, a).session.station;
      if f.opcode == 3 {
        var identity := ContentIdentity(p[24..56], Unpack(p[16..24]), p[..16]);
        assert t == Perform(device, s.station, OpeningTransfer(f.requestId, p[..16], identity, a.now));
      } else if f.opcode == 4 {
        assert t == Perform(device, s.station, FeedingTransfer(p[..16], Unpack(p[16..24]), p[24..], a.now));
      } else if f.opcode == 5 {
        assert t == Perform(device, s.station, CommittingTransfer(p));
      } else {
        assert t == Perform(device, s.station, AbortingTransfer(f.requestId, p));
      }
    }
  }

  /**
   * Whatever arrives, from whatever sender: everything that reaches the sink has the length and the digest that were
   * declared for it, and fits the device.
   */
  lemma {:induction false} SinkIsChecked(device: Device, s: SessionView, arrivals: seq<Arrival>)
    requires Bounded(device, s.station) && forall d <- s.station.delivered :: Checked(device, d)
    ensures var t := Serve(device, s, arrivals).session.station;
      Bounded(device, t) && s.station.delivered <= t.delivered && forall d <- t.delivered :: Checked(device, d)
    decreases |arrivals|
  {
    hide Handle, Checked, Perform;
    if arrivals != [] {
      FrameIsCall(device, s, arrivals[0]);
      var t := Handle(device, s, arrivals[0]).session.station;
      if t != s.station && t != s.station.(transaction := None) {
        var call :| t == Perform(device, s.station, call);
        CallIsChecked(device, s.station, call);
      }
      SinkIsChecked(device, Handle(device, s, arrivals[0]).session, arrivals[1..]);
    }
  }

  /** A new device has nothing to check. */
  lemma {:induction false} NewIsChecked(device: Device, arrivals: seq<Arrival>)
    ensures forall d <- Serve(device, SessionView(Station(None, []), None, 1), arrivals).session.station.delivered :: Checked(device, d)
  {
    hide Serve, Checked;
    SinkIsChecked(device, SessionView(Station(None, []), None, 1), arrivals);
  }

  // ---------------------------------------------------------------- the session object

  class Session {
    const receiver: Receivers.Receiver
    var nonce: Option<Octets>
    var nextRequestId: nat

    ghost predicate Valid()
      reads this, receiver, receiver.buffer
    {
      receiver.Valid()
    }

    ghost function View(): SessionView
      reads this, receiver, receiver.buffer
      requires Valid()
    {
      SessionView(receiver.View(), nonce, nextRequestId)
    }

    constructor (device: Device)
      ensures Valid() && fresh(receiver) && fresh(receiver.buffer) && receiver.device == device
      ensures View() == SessionView(Station(None, []), None, 1)
    {
      receiver := new Receivers.Receiver(device);
      nonce, nextRequestId := None, 1;
    }

    method Hello(requestId: int, nonce: Octets, candidate: Octets) returns (reply: Reply)
      requires Valid()
      modifies this, receiver
      ensures Valid() && (receiver.buffer == old(receiver.buffer) || fresh(receiver.buffer))
      ensures SessionOutcome(reply, View()) == Greet(old(View()), requestId, nonce, candidate)
    {
      if requestId != 1 || nonce != NO_NONCE {
        return Rejected;
      }
      if |candidate| != 16 || !AnyBit(candidate) {
        return Rejected;
      }
      receiver.Clear();
      this.nonce := Some(candidate);
      nextRequestId := 2;
      return Accepted;
    }

    method Authorize(requestId: int, nonce: Octets) returns (ok: bool)
      modifies this`nextRequestId
      ensures ok == (this.nonce == Some(nonce) && old(nextRequestId) != 0 && requestId == old(nextRequestId))
      ensures nextRequestId == if !ok then old(nextRequestId)
                               else if old(nextRequestId) == LAST_REQUEST_ID then 0 else old(nextRequestId) + 1
    {
      if this.nonce != Some(nonce) {
        return false;
      }
      if nextRequestId == 0 || requestId != nextRequestId {
        return false;
      }
      nextRequestId := if requestId == LAST_REQUEST_ID then 0 else requestId + 1;
      return true;
    }

    method HandleFrame(a: Arrival) returns (reply: Reply)
      requires Valid()
      modifies this, receiver, receiver.buffer
      ensures Valid() && (receiver.buffer == old(receiver.buffer) || fresh(receiver.buffer))
      ensures SessionOutcome(reply, View()) == Handle(receiver.device, old(View()), a)
    {
      var f, p := a.frame, a.frame.payload;
      if f.opcode == 1 {
        if p != [] {
          return Rejected;
        }
        reply := Hello(f.requestId, f.nonce, a.candidate);
        return;
      }
      if f.opcode == 2 {
        return if p == [] then Reported else Rejected;
      }
      if !ReachesSession(a) {
        return Rejected;
      }
      var ok := Authorize(f.requestId, f.nonce);
      if !ok {
        return Rejected;
      }
      if f.opcode == 3 {
        var identity := ContentIdentity(p[24..56], Unpack(p[16..24]), p[..16]);
        reply := receiver.BeginTransfer(f.requestId, p[..16], identity, a.now);
      } else if f.opcode == 4 {
        reply := receiver.DataTransfer(p[..16], Unpack(p[16..24]), p[24..], a.now);
      } else if f.opcode == 5 {
        reply := receiver.CommitTransfer(p);
      } else {
        reply := receiver.AbortTransfer(f.requestId, p);
      }
    }

    method ServeAll(arrivals: seq<Arrival>) returns (replies: seq<Reply>)
      requires Valid()
      modifies this, receiver, receiver.buffer
      ensures Valid() && (receiver.buffer == old(receiver.buffer) || fresh(receiver.buffer))
      ensures Served(replies, View()) == Serve(receiver.device, old(View()), arrivals)
    {
      replies := [];
      for i := 0 to |arrivals|
        invariant Valid() && (receiver.buffer == old(receiver.buffer) || fresh(receiver.buffer))
        invariant Served(replies, View()) == Serve(receiver.device, old(View()), arrivals[..i])
      {
        ghost var before := View();
        var reply := HandleFrame(arrivals[i]);
        replies := replies + [reply];
        ServeAppend(receiver.device, old(View()), arrivals[..i], [arrivals[i]]);
        assert arrivals[..i + 1] == arrivals[..i] + [arrivals[i]];
        assert Serve(receiver.device, before, [arrivals[i]]) == Served([reply], View());
      }
      assert arrivals[..|arrivals|] == arrivals;
    }
  }
}
