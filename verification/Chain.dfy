/** Hash-linked journal records and their verification. */
module Chain {
  import opened Wrappers

  /** An event as both reducers write it; only its identity matters to the journal. */
  datatype Event<D> = Event(id: string, epoch: string, generation: int, data: D)

  /** The ideal digest of `{previous, event}`: a free constructor, so it is injective and never collides. */
  datatype Digest<D> = Digest(previous: Option<Digest<D>>, event: Event<D>)

  type Head<D> = Option<Digest<D>>

  datatype Envelope<D> = Envelope(previous: Head<D>, event: Event<D>, digest: Digest<D>)

  datatype Comment<D> = Comment(id: int, edited: bool, envelope: Envelope<D>)

  function Sealed<D>(previous: Head<D>, event: Event<D>): Envelope<D> {
    Envelope(previous, event, Digest(previous, event))
  }

  /** The one history a head can stand for. */
  function History<D>(head: Head<D>): seq<Event<D>> {
    if head.None? then [] else History(head.value.previous) + [head.value.event]
  }

  function Records<D>(head: Head<D>): (r: seq<Envelope<D>>)
    ensures |r| == |History(head)|
  {
    if head.None? then []
    else Records(head.value.previous) + [Sealed(head.value.previous, head.value.event)]
  }

  function Events<D>(envelopes: seq<Envelope<D>>): seq<Event<D>> {
    seq(|envelopes|, i requires 0 <= i < |envelopes| => envelopes[i].event)
  }

  function Envelopes<D>(comments: seq<Comment<D>>): seq<Envelope<D>> {
    seq(|comments|, i requires 0 <= i < |comments| => comments[i].envelope)
  }

  /** The records continue the chain from `previous` and end it at `head`. */
  predicate Linked<D(==)>(envelopes: seq<Envelope<D>>, previous: Head<D>, head: Head<D>) {
    if envelopes == [] then
      previous == head
    else
      && envelopes[0] == Sealed(previous, envelopes[0].event)
      && Linked(envelopes[1..], Some(envelopes[0].digest), head)
  }

  lemma {:induction false} LinkedSnoc<D(!new)>(envelopes: seq<Envelope<D>>, last: Envelope<D>, previous: Head<D>, head: Head<D>)
    ensures Linked(envelopes + [last], previous, head)
      <==> Linked(envelopes, previous, last.previous) && last == Sealed(last.previous, last.event) && head == Some(last.digest)
    decreases |envelopes|
  {
    if envelopes == [] {
      assert envelopes + [last] == [last];
    } else {
      assert (envelopes + [last])[1..] == envelopes[1..] + [last];
      LinkedSnoc(envelopes[1..], last, Some(envelopes[0].digest), head);
    }
  }

  lemma {:induction false} LinkedAppend<D(!new)>(a: seq<Envelope<D>>, b: seq<Envelope<D>>, previous: Head<D>, middle: Head<D>, head: Head<D>)
    requires Linked(a, previous, middle)
    ensures Linked(a + b, previous, head) <==> Linked(b, middle, head)
    decreases |a|
  {
    if a == [] {
      assert a + b == b;
    } else {
      assert (a + b)[1..] == a[1..] + b;
      LinkedAppend(a[1..], b, Some(a[0].digest), middle, head);
    }
  }

  /** A head fixes every record behind it: two complete chains with one head are the same chain. */
  lemma {:induction false} HeadFixesChain<D(!new)>(envelopes: seq<Envelope<D>>, head: Head<D>)
    ensures Linked(envelopes, None, head) <==> envelopes == Records(head)
    ensures Linked(envelopes, None, head) ==> Events(envelopes) == History(head)
    decreases |envelopes|
  {
    if envelopes == [] {
      assert head.Some? ==> |Records(head)| > 0;
    } else {
      var rest, last := envelopes[..|envelopes| - 1], envelopes[|envelopes| - 1];
      assert envelopes == rest + [last];
      LinkedSnoc(rest, last, None, head);
      HeadFixesChain(rest, last.previous);
      if head.Some? {
        HeadFixesChain(rest, head.value.previous);
        assert Events(rest) + [last.event] == Events(envelopes);
        if envelopes == Records(head) {
          assert last == Sealed(head.value.previous, head.value.event);
          assert rest == Records(head.value.previous);
        }
      }
    }
  }

  // ---------------------------------------------------------------- verification of comments

  datatype Verified<D> = Verified(envelopes: seq<Envelope<D>>, head: Head<D>, ids: set<int>)

  type Authenticate<!D> = Comment<D> -> bool

  /** Metadata, writer and chain checks over comments in order; the first `skip` keep an older writer proof. */
  function Verify<D(==)>(comments: seq<Comment<D>>, previous: Head<D>, ids: set<int>, skip: nat, auth: Authenticate<D>): Result<Verified<D>>
    decreases |comments|
  {
    if comments == [] then
      Success(Verified([], previous, ids))
    else
      var c := comments[0];
      if c.id in ids || c.edited || (skip == 0 && !auth(c)) || c.envelope != Sealed(previous, c.envelope.event) then
        Failure
      else
        var rest :- Verify(comments[1..], Some(c.envelope.digest), ids + {c.id}, if skip == 0 then 0 else skip - 1, auth);
        Success(Verified([c.envelope] + rest.envelopes, rest.head, rest.ids))
  }

  ghost function Ids<D>(comments: seq<Comment<D>>): set<int> {
    set c <- comments :: c.id
  }

  /** New comments that can be trusted at all: fresh distinct identities, never edited. */
  ghost predicate Pristine<D>(comments: seq<Comment<D>>, ids: set<int>) {
    && (forall c <- comments :: !c.edited && c.id !in ids)
    && (forall i, j | 0 <= i < j < |comments| :: comments[i].id != comments[j].id)
  }

  function HeadAfter<D>(comments: seq<Comment<D>>, previous: Head<D>): Head<D> {
    if comments == [] then previous else Some(comments[|comments| - 1].envelope.digest)
  }

  /** Exactly what a successful verification has established, and all it has established. */
  lemma {:induction false} VerifyMeans<D(!new)>(comments: seq<Comment<D>>, previous: Head<D>, ids: set<int>, skip: nat, auth: Authenticate<D>)
    ensures var v := Verify(comments, previous, ids, skip, auth);
      var head := HeadAfter(comments, previous);
      && (v.Success? <==>
            && Pristine(comments, ids)
            && Linked(Envelopes(comments), previous, head)
            && forall i | skip <= i < |comments| :: auth(comments[i]))
      && (v.Success? ==> v.value == Verified(Envelopes(comments), head, ids + Ids(comments)))
    decreases |comments|
  {
    hide Pristine, Ids;
    NoComments<D>(ids);
    if comments != [] {
      var c, rest := comments[0], comments[1..];
      var fewer := if skip == 0 then 0 else skip - 1;
      VerifyMeans(rest, Some(c.envelope.digest), ids + {c.id}, fewer, auth);
      assert comments == [c] + rest;
      assert Envelopes(comments)[1..] == Envelopes(rest);
      assert Envelopes(comments) == [c.envelope] + Envelopes(rest);
      PristineCons(c, rest, ids);
      AuthCons(comments, skip, auth);
    }
  }

  lemma NoComments<D(!new)>(ids: set<int>)
    ensures Pristine<D>([], ids) && Ids<D>([]) == {}
  {
  }

  lemma AuthCons<D(!new)>(comments: seq<Comment<D>>, skip: nat, auth: Authenticate<D>)
    requires comments != []
    ensures var fewer := if skip == 0 then 0 else skip - 1;
      (forall i | skip <= i < |comments| :: auth(comments[i]))
      <==> (skip == 0 ==> auth(comments[0])) && (forall i | fewer <= i < |comments| - 1 :: auth(comments[1..][i]))
  {
    assert forall i | 1 <= i < |comments| :: comments[i] == comments[1..][i - 1];
    assert forall i | 0 <= i < |comments| - 1 :: comments[1..][i] == comments[i + 1];
  }

  lemma PristineCons<D>(c: Comment<D>, rest: seq<Comment<D>>, ids: set<int>)
    ensures Pristine([c] + rest, ids) <==> !c.edited && c.id !in ids && Pristine(rest, ids + {c.id})
    ensures Ids([c] + rest) == {c.id} + Ids(rest)
  {
    hide Pristine;
    assert forall x :: x in [c] + rest <==> x == c || x in rest;
    if Pristine([c] + rest, ids) {
      PristineTail(c, rest, ids);
    }
    if !c.edited && c.id !in ids && Pristine(rest, ids + {c.id}) {
      PristineGrow(c, rest, ids);
    }
  }

  lemma PristineTail<D>(c: Comment<D>, rest: seq<Comment<D>>, ids: set<int>)
    requires Pristine([c] + rest, ids)
    ensures !c.edited && c.id !in ids && Pristine(rest, ids + {c.id})
  {
    var all := [c] + rest;
    assert all[0] in all;
    forall k | 0 <= k < |rest| ensures !rest[k].edited && rest[k].id !in ids + {c.id} {
      assert all[k + 1] == rest[k] && all[k + 1] in all;
      assert all[0].id != all[k + 1].id;
    }
    forall i, j | 0 <= i < j < |rest| ensures rest[i].id != rest[j].id {
      assert all[i + 1].id != all[j + 1].id;
    }
  }

  lemma PristineGrow<D>(c: Comment<D>, rest: seq<Comment<D>>, ids: set<int>)
    requires !c.edited && c.id !in ids && Pristine(rest, ids + {c.id})
    ensures Pristine([c] + rest, ids)
  {
    var all := [c] + rest;
    forall k | 0 <= k < |all| ensures !all[k].edited && all[k].id !in ids {
      assert k > 0 ==> all[k] == rest[k - 1] && rest[k - 1] in rest;
    }
    forall i, j | 0 <= i < j < |all| ensures all[i].id != all[j].id {
      assert all[j] == rest[j - 1] && rest[j - 1] in rest;
      assert i > 0 ==> all[i] == rest[i - 1];
    }
  }

  function Prefixed<D>(envelopes: seq<Envelope<D>>, r: Result<Verified<D>>): Result<Verified<D>> {
    if r.Failure? then r else Success(r.value.(envelopes := envelopes + r.value.envelopes))
  }

  lemma {:induction false} VerifyAppend<D(!new)>(a: seq<Comment<D>>, b: seq<Comment<D>>, previous: Head<D>, ids: set<int>, skip: nat, auth: Authenticate<D>)
    ensures var v := Verify(a, previous, ids, skip, auth);
      Verify(a + b, previous, ids, skip, auth)
        == if v.Failure? then v
           else Prefixed(v.value.envelopes,
                         Verify(b, v.value.head, v.value.ids, if skip > |a| then skip - |a| else 0, auth))
    decreases |a|
  {
    hide Verify;
    if a == [] {
      assert a + b == b;
      VerifyNothing(previous, ids, skip, auth);
      PrefixedByNothing(Verify(b, previous, ids, skip, auth));
    } else {
      var c, fewer := a[0], if skip == 0 then 0 else skip - 1;
      assert (a + b)[1..] == a[1..] + b && (a + b)[0] == c;
      VerifyHead(a, previous, ids, skip, auth);
      VerifyHead(a + b, previous, ids, skip, auth);
      VerifyAppend(a[1..], b, Some(c.envelope.digest), ids + {c.id}, fewer, auth);
      var rest := Verify(a[1..], Some(c.envelope.digest), ids + {c.id}, fewer, auth);
      if rest.Success? {
        PrefixedTwice([c.envelope], rest.value.envelopes,
                      Verify(b, rest.value.head, rest.value.ids, if skip > |a| then skip - |a| else 0, auth));
      }
    }
  }

  lemma PrefixedByNothing<D(!new)>(r: Result<Verified<D>>)
    ensures Prefixed([], r) == r
  {
    if r.Success? {
      assert [] + r.value.envelopes == r.value.envelopes;
    }
  }

  lemma PrefixedTwice<D(!new)>(a: seq<Envelope<D>>, b: seq<Envelope<D>>, r: Result<Verified<D>>)
    ensures Prefixed(a, Prefixed(b, r)) == Prefixed(a + b, r)
  {
    if r.Success? {
      assert a + (b + r.value.envelopes) == (a + b) + r.value.envelopes;
    }
  }

  lemma {:induction false} VerifyNothing<D(!new)>(head: Head<D>, ids: set<int>, skip: nat, auth: Authenticate<D>)
    ensures Verify([], head, ids, skip, auth) == Success(Verified([], head, ids))
  {
  }

  lemma VerifyHead<D(!new)>(comments: seq<Comment<D>>, previous: Head<D>, ids: set<int>, skip: nat, auth: Authenticate<D>)
    requires comments != []
    ensures var c := comments[0];
      Verify(comments, previous, ids, skip, auth)
        == if c.id in ids || c.edited || (skip == 0 && !auth(c)) || c.envelope != Sealed(previous, c.envelope.event) then Failure
           else Prefixed([c.envelope], Verify(comments[1..], Some(c.envelope.digest), ids + {c.id}, if skip == 0 then 0 else skip - 1, auth))
  {
  }

  /** The verification loop of the source: one comment at a time, growing the identity set and the chain. */
  method VerifyComments<D(==,!new)>(comments: seq<Comment<D>>, previous: Head<D>, known: set<int>, skip: nat, auth: Authenticate<D>)
    returns (r: Result<Verified<D>>)
    ensures r == Verify(comments, previous, known, skip, auth)
  {
    hide Verify, Prefixed;
    var envelopes, head, ids := [], previous, known;
    var trusted: nat := skip;
    assert comments[0..] == comments;
    PrefixedByNothing(Verify(comments, previous, known, skip, auth));
    for index := 0 to |comments|
      invariant trusted == if skip > index then skip - index else 0
      invariant Verify(comments, previous, known, skip, auth) == Prefixed(envelopes, Verify(comments[index..], head, ids, trusted, auth))
    {
      var comment := comments[index];
      assert comments[index..][1..] == comments[index + 1..];
      VerifyHead(comments[index..], head, ids, trusted, auth);
      PrefixedFailure(envelopes);
      if comment.id in ids {
        return Failure;
      }
      if comment.edited {
        return Failure;
      }
      if index >= skip && !auth(comment) {
        return Failure;
      }
      var envelope := comment.envelope;
      if envelope.previous != head {
        return Failure;
      }
      if envelope.digest != Digest(head, envelope.event) {
        return Failure;
      }
      trusted := if trusted == 0 then 0 else trusted - 1;
      PrefixedTwice(envelopes, [envelope], Verify(comments[index + 1..], Some(envelope.digest), ids + {comment.id}, trusted, auth));
      ids := ids + {comment.id};
      head := Some(envelope.digest);
      envelopes := envelopes + [envelope];
    }
    assert comments[|comments|..] == [];
    VerifyNothing(head, ids, trusted, auth);
    PrefixedSuccess(envelopes, head, ids);
    return Success(Verified(envelopes, head, ids));
  }

  lemma PrefixedFailure<D(!new)>(envelopes: seq<Envelope<D>>)
    ensures Prefixed(envelopes, Failure) == Failure
  {
  }

  lemma PrefixedSuccess<D(!new)>(envelopes: seq<Envelope<D>>, head: Head<D>, ids: set<int>)
    ensures Prefixed(envelopes, Success(Verified([], head, ids))) == Success(Verified(envelopes, head, ids))
  {
    assert envelopes + [] == envelopes;
  }
}
