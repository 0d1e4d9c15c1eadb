/** The journal client: cached and complete reads, and the locked append, recovery and audit operations. */
module Journals {
  import opened Wrappers
  import opened Chain
  import opened Protocol

  datatype Page<D> = Page(comments: seq<Comment<D>>, cursor: Option<string>)
  datatype DeltaPage<D> = DeltaPage(comments: seq<Comment<D>>, cursor: Option<string>, total: int)

  function Flatten<D>(pages: seq<Page<D>>): seq<Comment<D>> {
    if pages == [] then [] else pages[0].comments + Flatten(pages[1..])
  }

  function FlattenDelta<D>(pages: seq<DeltaPage<D>>): seq<Comment<D>> {
    if pages == [] then [] else pages[0].comments + FlattenDelta(pages[1..])
  }

  lemma {:induction false} FlattenDeltaSnoc<D(!new)>(pages: seq<DeltaPage<D>>, last: DeltaPage<D>)
    ensures FlattenDelta(pages + [last]) == FlattenDelta(pages) + last.comments
    decreases |pages|
  {
    if pages == [] {
      assert pages + [last] == [last];
    } else {
      assert (pages + [last])[1..] == pages[1..] + [last];
      FlattenDeltaSnoc(pages[1..], last);
      assert pages[0].comments + (FlattenDelta(pages[1..]) + last.comments)
        == (pages[0].comments + FlattenDelta(pages[1..])) + last.comments;
    }
  }

  /** The history this process has verified, and where its reading stopped. */
  datatype Cache<D> = Cache(head: Head<D>, cursor: Option<string>, count: nat, envelopes: seq<Envelope<D>>, ids: set<int>)

  /** Reads every page and verifies it while its writer proofs are current. */
  method ReadComplete<D(==,!new)>(pages: seq<Page<D>>, prefix: nat, auth: Authenticate<D>) returns (r: Result<Cache<D>>)
    ensures var v := Verify(Flatten(pages), None, {}, prefix, auth);
      && (r.Success? <==> v.Success?)
      && (r.Success? ==> r.value == Cache(v.value.head, r.value.cursor, |v.value.envelopes|, v.value.envelopes, v.value.ids))
  {
    hide Verify;
    var head: Head<D>, end: Option<string> := None, None;
    var ids: set<int>, envelopes: seq<Envelope<D>> := {}, [];
    var remaining: nat := prefix;
    ghost var whole := Verify(Flatten(pages), None, {}, prefix, auth);
    assert pages[0..] == pages;
    PrefixedByNothing(whole);
    for n := 0 to |pages|
      invariant whole == Prefixed(envelopes, Verify(Flatten(pages[n..]), head, ids, remaining, auth))
    {
      var page := pages[n];
      assert pages[n..][1..] == pages[n + 1..];
      VerifyAppend(page.comments, Flatten(pages[n + 1..]), head, ids, remaining, auth);
      var verified := VerifyComments(page.comments, head, ids, remaining, auth);
      if verified.Failure? {
        return Failure;
      }
      remaining := if remaining > |page.comments| then remaining - |page.comments| else 0;
      PrefixedTwice(envelopes, verified.value.envelopes,
                    Verify(Flatten(pages[n + 1..]), verified.value.head, verified.value.ids, remaining, auth));
      head, ids := verified.value.head, verified.value.ids;
      envelopes := envelopes + verified.value.envelopes;
      if page.cursor.Some? {
        end := page.cursor;
      }
    }
    VerifyNothing(head, ids, remaining, auth);
    assert envelopes + [] == envelopes;
    return Success(Cache(head, end, |envelopes|, envelopes, ids));
  }

  predicate SteadyTotal<D>(pages: seq<DeltaPage<D>>, total: int) {
    pages != [] && forall i | 0 <= i < |pages| :: pages[i].total == total
  }

  /** What a delta read amounts to, in terms of the pages the transport returned. */
  function DeltaResult<D(==)>(cache: Cache<D>, pages: seq<DeltaPage<D>>, auth: Authenticate<D>): Result<Verified<D>> {
    var comments := FlattenDelta(pages);
    if SteadyTotal(pages, cache.count + |comments|) then Verify(comments, cache.head, cache.ids, 0, auth) else Failure
  }

  /** Verifies only what follows the cached history; the inventory total has to match. */
  method ReadDelta<D(==,!new)>(cache: Cache<D>, pages: seq<DeltaPage<D>>, auth: Authenticate<D>) returns (r: Result<Cache<D>>)
    ensures var v := DeltaResult(cache, pages, auth);
      && (r.Success? <==> v.Success?)
      && (r.Success? ==> r.value == Cache(v.value.head, r.value.cursor, cache.count + |v.value.envelopes|,
                                          cache.envelopes + v.value.envelopes, v.value.ids))
  {
    var comments, end := [], None;
    var total: Option<int> := None;
    for n := 0 to |pages|
      invariant comments == FlattenDelta(pages[..n])
      invariant n > 0 ==> total.Some? && SteadyTotal(pages[..n], total.value)
      invariant n == 0 ==> total.None?
    {
      var page := pages[n];
      assert pages[..n + 1] == pages[..n] + [page];
      FlattenDeltaSnoc(pages[..n], page);
      if page.total < 0 {
        return Failure;
      }
      if total.Some? && total.value != page.total {
        assert pages[0].total == pages[..n][0].total == total.value;
        return Failure;
      }
      total := Some(page.total);
      comments := comments + page.comments;
      if page.cursor.Some? {
        end := page.cursor;
      }
    }
    assert pages[..|pages|] == pages;
    if total != Some(cache.count + |comments|) {
      return Failure;
    }
    if comments == [] {
      assert cache.envelopes + [] == cache.envelopes;
      return Success(cache);
    }
    var verified := VerifyComments(comments, cache.head, cache.ids, 0, auth);
    if verified.Failure? {
      return Failure;
    }
    return Success(Cache(verified.value.head, if end.Some? then end else cache.cursor,
                         cache.count + |verified.value.envelopes|, cache.envelopes + verified.value.envelopes, verified.value.ids));
  }

  /**
   * Cached reads agree with the simple read, whatever the transport returns to either: if both reach the anchored
   * head, they return the same history.
   */
  lemma {:induction false} CachedReadsAgree<D(!new)>(cache: Cache<D>, delta: seq<DeltaPage<D>>, pages: seq<Page<D>>, prefix: nat,
                                                     deltaAuth: Authenticate<D>, fullAuth: Authenticate<D>)
    requires Linked(cache.envelopes, None, cache.head)
    ensures var d := DeltaResult(cache, delta, deltaAuth);
      var f := Verify(Flatten(pages), None, {}, prefix, fullAuth);
      d.Success? && f.Success? && d.value.head == f.value.head
      ==> cache.envelopes + d.value.envelopes == f.value.envelopes == Records(f.value.head)
  {
    var d := DeltaResult(cache, delta, deltaAuth);
    var f := Verify(Flatten(pages), None, {}, prefix, fullAuth);
    VerifyMeans(FlattenDelta(delta), cache.head, cache.ids, 0, deltaAuth);
    VerifyMeans(Flatten(pages), None, {}, prefix, fullAuth);
    if d.Success? && f.Success? && d.value.head == f.value.head {
      LinkedAppend(cache.envelopes, d.value.envelopes, None, cache.head, d.value.head);
      HeadFixesChain(cache.envelopes + d.value.envelopes, f.value.head);
      HeadFixesChain(f.value.envelopes, f.value.head);
    }
  }

  /** Over append-only comments the delta read succeeds exactly when a full re-read does, and then equals it. */
  lemma {:induction false} DeltaEqualsFullRead<D(!new)>(cache: Cache<D>, before: seq<Comment<D>>, delta: seq<DeltaPage<D>>,
                                                        pages: seq<Page<D>>, auth: Authenticate<D>)
    requires Verify(before, None, {}, 0, auth) == Success(Verified(cache.envelopes, cache.head, cache.ids))
    requires cache.count == |before|
    requires Flatten(pages) == before + FlattenDelta(delta)
    requires SteadyTotal(delta, |Flatten(pages)|)
    ensures Prefixed(cache.envelopes, DeltaResult(cache, delta, auth)) == Verify(Flatten(pages), None, {}, 0, auth)
  {
    VerifyAppend(before, FlattenDelta(delta), None, {}, 0, auth);
  }

  // ---------------------------------------------------------------- storage

  datatype WriteFault = Fine | LostBefore | LostAfter

  /** Whether a POST is issued at all, lands at once, and is answered; the server numbers the comment. */
  datatype Fate = Fate(issued: bool, lands: bool, wish: int, answered: bool)

  function Above(comments: seq<Comment>, wish: int): int {
    if comments == [] then wish
    else
      var rest := Above(comments[1..], wish);
      if comments[0].id >= rest then comments[0].id + 1 else rest
  }

  lemma {:induction false} AboveIsUnused<D>(comments: seq<Comment<D>>, wish: int)
    ensures forall c <- comments :: c.id < Above(comments, wish)
    decreases |comments|
  {
    if comments != [] {
      AboveIsUnused(comments[1..], wish);
      assert forall c <- comments :: c == comments[0] || c in comments[1..];
    }
  }

  /** The first `count` comments are there, and genuine. */
  ghost predicate Vouched<D>(comments: seq<Comment<D>>, count: nat, genuine: Authenticate<D>) {
    count <= |comments| && forall i | 0 <= i < count :: genuine(comments[i])
  }

  /** The committed history stands at the front of the comments, and all of it is genuine. */
  ghost predicate Authored<D(!new)>(w: World<D>, genuine: Authenticate<D>) {
    var records := Records(w.checkpoint.head);
    records <= Envelopes(w.comments) && Vouched(w.comments, |records|, genuine)
  }

  class Store<D(==,!new)> {
    var world: World<D>
    ghost var trace: seq<Action<D>>
    /** Which comments the trusted workflow really wrote; anyone may write others. */
    ghost const genuine: Authenticate<D>

    /** What is stored is always the outcome of a legal run of the protocol, and what is committed is genuine. */
    ghost predicate Valid()
      reads this
    {
      && Legal(Initial(), trace)
      && world == After(Initial(), trace)
      && Vouched(world.comments, |Records(world.checkpoint.head)|, genuine)
    }

    constructor (ghost genuine: Authenticate<D>)
      ensures Valid() && world == Initial() && trace == [] && this.genuine == genuine
    {
      world, trace, this.genuine := Initial(), [], genuine;
    }

    ghost method Record(action: Action<D>)
      requires Legal(Initial(), trace) && Enabled(After(Initial(), trace), action)
      modifies this`trace
      ensures trace == old(trace) + [action]
      ensures Legal(Initial(), trace) && After(Initial(), trace) == Effect(old(After(Initial(), trace)), action)
    {
      RunAppend(Initial(), trace, [action]);
      trace := trace + [action];
    }

    lemma Sound()
      requires Valid()
      ensures Anchored(world)
    {
      InitialIsSound<D>();
      HistoriesNeverFork(Initial<D>(), trace);
    }

    /** Whatever the journal has held before, in any earlier state of the run, it still holds. */
    lemma {:induction false} NeverForks(before: seq<Action<D>>)
      requires Valid() && before <= trace
      ensures Legal(Initial(), before) && Committed(After(Initial(), before)) <= Committed(world)
      ensures After(Initial(), before).comments <= world.comments
      ensures Anchored(world)
    {
      LegalPrefix(Initial<D>(), before, trace);
      var rest := trace[|before|..];
      assert trace == before + rest;
      RunAppend(Initial<D>(), before, rest);
      InitialIsSound<D>();
      HistoriesNeverFork(Initial<D>(), before);
      HistoriesNeverFork(After(Initial<D>(), before), rest);
    }

    /** Every committed record stands at its place among the comments, in a genuine one, whatever a persisted prefix skipped. */
    lemma CommittedIsGenuine()
      requires Valid()
      ensures Authored(world, genuine)
    {
      InitialIsSound<D>();
      AlwaysRooted(Initial<D>(), trace);
    }

    /** What a successful append returned, every later successful load returns, at its place and under no other identity. */
    lemma {:induction false} AppendsAreDurable(earlier: seq<Action<D>>, event: Event<D>, later: seq<Event<D>>)
      requires Valid() && earlier <= trace && Legal(Initial(), earlier)
      requires event in Committed(After(Initial(), earlier)) && later == Committed(world)
      ensures Committed(After(Initial(), earlier)) <= later && event in later
      ensures forall e <- later :: e.id == event.id ==> e == event
    {
      NeverForks(earlier);
      forall e | e in later && e.id == event.id ensures e == event {
        var i, j :| 0 <= i < |later| && later[i] == e && 0 <= j < |later| && later[j] == event;
        assert i == j;
      }
    }

    /** `IssueBodyAnchor.replace`: the write takes effect during the call or never; its answer may be lost. */
    method Replace(previous: Checkpoint<D>, replacement: Checkpoint<D>, fault: WriteFault, ghost action: Action<D>)
      returns (ok: bool)
      requires Valid()
      requires previous == world.checkpoint ==>
        Enabled(world, action) && Effect(world, action) == Replaced(world, replacement)
        && Vouched(world.comments, |Records(replacement.head)|, genuine)
      modifies this`world, this`trace
      ensures Valid()
      ensures ok <==> old(world).checkpoint == previous && fault == Fine
      ensures old(world).checkpoint == previous && fault != LostBefore ==>
        trace == old(trace) + [action] && world == Replaced(old(world), replacement)
      ensures old(world).checkpoint != previous || fault == LostBefore ==> trace == old(trace) && world == old(world)
    {
      if world.checkpoint != previous || fault == LostBefore {
        return false;
      }
      Record(action);
      world := Replaced(world, replacement);
      return fault == Fine;
    }

    /** One POST of the pending intent. */
    method Append(fate: Fate) returns (answered: bool)
      requires Valid() && world.checkpoint.pending.Some? && !world.sent && world.outstanding.None?
      modifies this`world, this`trace
      ensures Valid() && old(trace) <= trace
      ensures world.checkpoint == old(world).checkpoint
      ensures answered <==> fate.issued && fate.answered
      ensures PostCount(trace) == PostCount(old(trace)) + (if fate.issued then 1 else 0)
      ensures fate.issued && fate.lands ==>
        world.comments == old(world).comments + [Comment(Above(old(world).comments, fate.wish), false, world.checkpoint.pending.value)]
      ensures !(fate.issued && fate.lands) ==> world.comments == old(world).comments
    {
      if !fate.issued {
        return false;
      }
      PostCountAppend(trace, [Post]);
      Record(Post);
      world := world.(sent := true, outstanding := world.checkpoint.pending);
      if fate.lands {
        var id := Above(world.comments, fate.wish);
        AboveIsUnused(world.comments, fate.wish);
        PostCountAppend(trace, [Action.Land(id)]);
        Record(Action.Land(id));
        world := world.(comments := world.comments + [Comment(id, false, world.outstanding.value)], outstanding := None);
      }
      return fate.answered;
    }

    /** The environment: an issued POST lands between two calls. */
    method Land(id: int)
      requires Valid() && world.outstanding.Some? && forall c <- world.comments :: c.id != id
      modifies this`world, this`trace
      ensures Valid() && trace == old(trace) + [Action.Land(id)]
      ensures world == Effect(old(world), Action.Land(id))
      ensures Within(old(world), world, old(Loaded(world)))
    {
      Sound();
      CommittedIsLoaded(world);
      Record(Action.Land(id));
      world := world.(comments := world.comments + [Comment(id, false, world.outstanding.value)], outstanding := None);
    }

    /** The environment: someone else comments on the issue. */
    method Intrude(comment: Comment<D>)
      requires Valid() && !comment.edited && forall c <- world.comments :: c.id != comment.id
      modifies this`world, this`trace
      ensures Valid() && trace == old(trace) + [Action.Intrude(comment)]
      ensures world == Effect(old(world), Action.Intrude(comment))
      ensures Within(old(world), world, old(Loaded(world)))
    {
      Sound();
      CommittedIsLoaded(world);
      Record(Action.Intrude(comment));
      world := world.(comments := world.comments + [comment]);
    }

    /** The environment: a POST lands although its intent was dropped. */
    method LandLate(index: nat, id: int)
      requires Valid() && index < |world.stale| && forall c <- world.comments :: c.id != id
      modifies this`world, this`trace
      ensures Valid() && trace == old(trace) + [Action.LandLate(index, id)]
      ensures world == Effect(old(world), Action.LandLate(index, id))
      ensures Within(old(world), world, old(Loaded(world)))
    {
      Sound();
      CommittedIsLoaded(world);
      Record(Action.LandLate(index, id));
      world := world.(comments := world.comments + [Comment(id, false, world.stale[index])],
                      stale := world.stale[..index] + world.stale[index + 1..]);
    }

    predicate Unused(id: int)
      reads this
    {
      forall c <- world.comments :: c.id != id
    }

    /** The environment does this now, if it can. */
    method Disturb(a: Action<D>)
      requires Valid()
      modifies this`world, this`trace
      ensures Valid() && old(trace) <= trace
      ensures Within(old(world), world, old(Loaded(world)))
      ensures if (a.Land? || Strays(a)) && Enabled(old(world), a)
        then world == Effect(old(world), a) && trace == old(trace) + [a]
        else world == old(world) && trace == old(trace)
    {
      Sound();
      CommittedIsLoaded(world);
      match a
      case Land(id) =>
        if world.outstanding.Some? && Unused(id) {
          Land(id);
        }
      case LandLate(index, id) =>
        if index < |world.stale| && Unused(id) {
          LandLate(index, id);
        }
      case Intrude(comment) =>
        if !comment.edited && Unused(comment.id) {
          Intrude(comment);
        }
      case _ =>
    }
  }

  // ---------------------------------------------------------------- the client

  /** One operation's surroundings: its lock, the editor check, page splits, writer checks and checkpoint writes. */
  datatype Network<!D> = Network(
    locked: bool,
    trusted: bool,
    split: seq<Comment<D>> -> seq<Page<D>>,
    auth: Authenticate<D>,
    fault: WriteFault)

  /** What surrounds one appended event: the caller's lock, the network around the append, and the fate of its POST. */
  datatype Surroundings<!D> = Surroundings(locked: bool, before: Network<D>, prepare: WriteFault, fate: Fate, after: Network<D>)

  /** Nothing goes wrong around an append, and its writer checks pass all of these comments. */
  ghost predicate Smooth<D(!new)>(before: Network<D>, prepare: WriteFault, fate: Fate, after: Network<D>, comments: seq<Comment<D>>) {
    && Unhindered(before) && AllAuthentic(comments, before.auth)
    && prepare == Fine && fate == Fate(true, true, fate.wish, true)
    && Unhindered(after) && AllAuthentic(comments, after.auth)
  }

  predicate Unhindered<D>(net: Network<D>) {
    net.locked && net.trusted && net.fault == Fine
  }

  ghost predicate AllAuthentic<D(!new)>(comments: seq<Comment<D>>, auth: Authenticate<D>) {
    forall c <- comments :: auth(c)
  }

  /**
   * The transport returns every stored comment, once and in order, over any number of pages, and the writer check
   * passes genuine comments only.
   */
  ghost predicate Faithful<D(!new)>(net: Network<D>, genuine: Authenticate<D>) {
    && (forall comments :: net.split(comments) != [] && Flatten(net.split(comments)) == comments)
    && (forall c :: net.auth(c) ==> genuine(c))
  }

  /** Nothing goes wrong around this append while these are the comments. */
  ghost predicate Flawless<D(!new)>(at: Surroundings<D>, comments: seq<Comment<D>>) {
    at.locked && Smooth(at.before, at.prepare, at.fate, at.after, comments)
  }

  lemma FlawlessPart<D(!new)>(at: Surroundings<D>, part: seq<Comment<D>>, comments: seq<Comment<D>>)
    requires part <= comments && Flawless(at, comments)
    ensures Flawless(at, part)
  {
    assert forall c <- part :: c in comments;
  }

  ghost predicate Trusty<D(!new)>(at: Surroundings<D>, genuine: Authenticate<D>) {
    Faithful(at.before, genuine) && Faithful(at.after, genuine)
  }

  function WithTotal<D>(pages: seq<Page<D>>, total: int): (r: seq<DeltaPage<D>>)
    ensures |r| == |pages|
    ensures forall i | 0 <= i < |r| :: r[i].total == total
    ensures FlattenDelta(r) == Flatten(pages)
  {
    if pages == [] then []
    else [DeltaPage(pages[0].comments, pages[0].cursor, total)] + WithTotal(pages[1..], total)
  }

  ghost predicate Cached<D>(c: Cache<D>, comments: seq<Comment<D>>) {
    && c.count <= |comments|
    && c.envelopes == Envelopes(comments[..c.count])
    && c.ids == Ids(comments[..c.count])
    && Linked(c.envelopes, None, c.head)
  }

  lemma IdsAppend<D(!new)>(a: seq<Comment<D>>, b: seq<Comment<D>>)
    ensures Ids(a + b) == Ids(a) + Ids(b)
    ensures Envelopes(a + b) == Envelopes(a) + Envelopes(b)
  {
    assert forall x :: x in a + b <==> x in a || x in b;
  }

  /** A read of all the comments, which took the first `skip` writers on trust. */
  ghost predicate Reading<D>(r: Result<Cache<D>>, comments: seq<Comment<D>>, skip: nat, auth: Authenticate<D>) {
    && (r.Success? ==>
          && r.value.count == |comments|
          && Cached(r.value, comments)
          && forall i | skip <= i < |comments| :: auth(comments[i]))
    && ((forall c <- comments :: auth(c)) ==>
          (r.Success? <==> Linked(Envelopes(comments), None, HeadAfter(comments, None))))
  }

  lemma PristineSplit<D(!new)>(a: seq<Comment<D>>, b: seq<Comment<D>>)
    requires Pristine(a + b, {})
    ensures Pristine(b, Ids(a))
  {
    var all := a + b;
    forall x | x in b ensures !x.edited && x.id !in Ids(a) {
      var j :| 0 <= j < |b| && b[j] == x;
      assert all[|a| + j] == x && x in all;
      forall y | y in a ensures y.id != x.id {
        var i :| 0 <= i < |a| && a[i] == y;
        assert all[i].id != all[|a| + j].id;
      }
    }
    forall i, j | 0 <= i < j < |b| ensures b[i].id != b[j].id {
      assert all[|a| + i].id != all[|a| + j].id;
    }
  }

  lemma AuthSplit<D(!new)>(a: seq<Comment<D>>, b: seq<Comment<D>>, auth: Authenticate<D>)
    ensures (forall i | 0 <= i < |b| :: auth(b[i])) ==> forall i | |a| <= i < |a + b| :: auth((a + b)[i])
    ensures (forall c <- a + b :: auth(c)) ==> forall i | 0 <= i < |b| :: auth(b[i])
  {
    assert forall i | |a| <= i < |a + b| :: (a + b)[i] == b[i - |a|];
    assert forall i | 0 <= i < |b| :: b[i] in a + b;
  }

  /** Verifying the rest of the comments completes the cache. */
  lemma DeltaReading<D(!new)>(c: Cache<D>, comments: seq<Comment<D>>, auth: Authenticate<D>, r: Result<Cache<D>>)
    requires Cached(c, comments) && Pristine(comments, {})
    requires var v := Verify(comments[c.count..], c.head, c.ids, 0, auth);
      && (r.Success? <==> v.Success?)
      && (r.Success? ==> r.value == Cache(v.value.head, r.value.cursor, c.count + |v.value.envelopes|,
                                          c.envelopes + v.value.envelopes, v.value.ids))
    ensures Reading(r, comments, c.count, auth)
  {
    hide Verify, Pristine;
    var a, b := comments[..c.count], comments[c.count..];
    assert comments == a + b;
    assert comments[..|comments|] == comments;
    VerifyMeans(b, c.head, c.ids, 0, auth);
    IdsAppend(a, b);
    LinkedAppend(c.envelopes, Envelopes(b), None, c.head, HeadAfter(b, c.head));
    PristineSplit(a, b);
    AuthSplit(a, b, auth);
    CacheEndsAt(c, comments);
  }

  lemma {:induction false} FullReading<D(!new)>(comments: seq<Comment<D>>, skip: nat, auth: Authenticate<D>, r: Result<Cache<D>>)
    requires Pristine(comments, {})
    requires var v := Verify(comments, None, {}, skip, auth);
      && (r.Success? <==> v.Success?)
      && (r.Success? ==> r.value == Cache(v.value.head, r.value.cursor, |v.value.envelopes|, v.value.envelopes, v.value.ids))
    ensures Reading(r, comments, skip, auth)
  {
    hide Verify, Pristine;
    assert comments[..|comments|] == comments;
    VerifyMeans(comments, None, {}, skip, auth);
  }

  lemma CacheEndsAt<D(!new)>(c: Cache<D>, comments: seq<Comment<D>>)
    requires Cached(c, comments)
    ensures c.head == HeadAfter(comments[..c.count], None)
    ensures HeadAfter(comments[c.count..], c.head) == HeadAfter(comments, None)
  {
    if c.count > 0 {
      var es := c.envelopes;
      assert es == es[..c.count - 1] + [es[c.count - 1]];
      LinkedSnoc(es[..c.count - 1], es[c.count - 1], None, c.head);
    }
  }

  lemma {:induction false} DeltaPagesOf<D(!new)>(c: Cache<D>, pages: seq<Page<D>>, rest: seq<Comment<D>>, total: int, auth: Authenticate<D>)
    requires pages != [] && Flatten(pages) == rest && total == c.count + |rest|
    ensures DeltaResult(c, WithTotal(pages, total), auth) == Verify(rest, c.head, c.ids, 0, auth)
  {
  }

  /** Nothing is pending any more, and what was pending is committed. */
  ghost predicate Settled<D>(before: World<D>, now: World<D>) {
    now.checkpoint.pending.None? && now.checkpoint.head == LoadedHead(before)
  }

  /** The checks a load makes on the chain it read hold exactly when the stored comments are as they should be. */
  lemma LoadVerdict<D(!new)>(w: World<D>)
    requires Anchored(w)
    ensures var es := Envelopes(w.comments);
      var head := HeadAfter(w.comments, None);
      && (Readable(w) <==>
            && Linked(es, None, head)
            && if w.checkpoint.pending.None? then head == w.checkpoint.head
               else es != [] && es[|es| - 1] == w.checkpoint.pending.value)
      && (Readable(w) ==> head == LoadedHead(w) && es == Records(LoadedHead(w)) && Events(es) == Loaded(w))
  {
    var es := Envelopes(w.comments);
    var head := HeadAfter(w.comments, None);
    var c := w.checkpoint;
    HeadFixesChain(es, head);
    HeadFixesChain(es, LoadedHead(w));
    HeadFixesChain(Records(c.head), c.head);
    if c.pending.Some? {
      var p := c.pending.value;
      assert Records(Some(p.digest)) == Records(c.head) + [p];
      if es != [] && es[|es| - 1] == p {
        assert head == Some(p.digest);
      }
      if Readable(w) {
        assert es[|es| - 1] == p;
      }
    } else {
      assert Records(c.head) + [] == Records(c.head);
      if Readable(w) && es != [] {
        assert es == es[..|es| - 1] + [es[|es| - 1]];
        LinkedSnoc(es[..|es| - 1], es[|es| - 1], None, c.head);
      }
    }
  }

  lemma PendingIsTail<D(!new)>(w: World<D>)
    requires Anchored(w) && Readable(w) && w.checkpoint.pending.Some?
    ensures w.comments != []
    ensures var tail := w.comments[|w.comments| - 1];
      !tail.edited && tail.envelope == w.checkpoint.pending.value && tail.envelope.previous == w.checkpoint.head
  {
    var es := Envelopes(w.comments);
    assert es[|es| - 1] == w.checkpoint.pending.value;
    assert w.comments[|w.comments| - 1] in w.comments;
  }

  lemma ReadingVerdict<D(!new)>(c: Cache<D>, comments: seq<Comment<D>>)
    requires Cached(c, comments) && c.count == |comments|
    ensures c.head == HeadAfter(comments, None) && c.envelopes == Envelopes(comments)
    ensures Linked(Envelopes(comments), None, HeadAfter(comments, None))
    ensures c.envelopes == Records(c.head) && |c.envelopes| == c.count == |History(c.head)|
  {
    assert comments[..c.count] == comments;
    CacheEndsAt(c, comments);
    HeadFixesChain(c.envelopes, c.head);
  }

  class Journal<D(==,!new)> {
    const store: Store<D>
    var verified: Option<Cache<D>>

    ghost predicate Valid()
      reads this, store
    {
      store.Valid() && (verified.Some? ==> Cached(verified.value, store.world.comments))
    }

    constructor (store: Store<D>)
      requires store.Valid()
      ensures Valid() && this.store == store && verified.None?
    {
      this.store := store;
      verified := None;
    }

    method Read(anchor: Checkpoint<D>, net: Network<D>) returns (r: Result<Cache<D>>)
      requires Valid() && Faithful(net, store.genuine) && GoodPrefix(anchor)
      modifies this`verified
      ensures Valid()
      ensures r.Success? ==> verified == Some(r.value) && r.value.count == |store.world.comments|
      ensures r.Success? ==> forall i | |Records(anchor.head)| <= i < |store.world.comments| :: net.auth(store.world.comments[i])
      ensures r.Success? && |Records(anchor.head)| <= |Records(store.world.checkpoint.head)| ==>
        AllAuthentic(store.world.comments, store.genuine)
      ensures AllAuthentic(store.world.comments, net.auth) ==>
        (r.Success? <==> Linked(Envelopes(store.world.comments), None, HeadAfter(store.world.comments, None)))
    {
      hide Linked, Cached;
      ghost var skip;
      r, skip := Fetch(anchor, net);
      if r.Success? {
        verified := Some(r.value);
      }
    }

    /** This process verified exactly the anchored head, and knows where its reading stopped. */
    predicate Continues(anchor: Checkpoint<D>)
      reads this
    {
      verified.Some? && verified.value.cursor.Some? && verified.value.head == anchor.head
    }

    /** A delta when this process already verified exactly the anchored head, otherwise a complete read. */
    method Fetch(anchor: Checkpoint<D>, net: Network<D>) returns (r: Result<Cache<D>>, ghost skip: nat)
      requires Valid() && Faithful(net, store.genuine) && GoodPrefix(anchor)
      ensures Reading(r, store.world.comments, skip, net.auth)
      ensures skip <= |Records(anchor.head)|
      ensures skip == if Continues(anchor) then verified.value.count
        else if anchor.verified.Some? && anchor.verified.value.head == anchor.head then anchor.verified.value.count else 0
      ensures Continues(anchor) && r.Success? ==> verified.value.envelopes <= r.value.envelopes
    {
      hide Verify, Linked, Pristine, SteadyTotal;
      store.Sound();
      if Continues(anchor) {
        var cache := verified.value;
        skip := cache.count;
        HeadFixesChain(cache.envelopes, anchor.head);
        var rest := store.world.comments[cache.count..];
        DeltaPagesOf(cache, net.split(rest), rest, |store.world.comments|, net.auth);
        r := ReadDelta(cache, WithTotal(net.split(rest), |store.world.comments|), net.auth);
        DeltaReading(cache, store.world.comments, net.auth, r);
      } else {
        var prefix := if anchor.verified.Some? && anchor.verified.value.head == anchor.head then anchor.verified.value.count else 0;
        skip := prefix;
        r := ReadComplete(net.split(store.world.comments), prefix, net.auth);
        FullReading(store.world.comments, skip, net.auth, r);
      }
    }

    /** The prefix worth persisting, when this process's read covers `head`. */
    function VerifiedPayload(head: Head<D>): Option<Prefix<D>>
      reads this
    {
      if verified.Some? && verified.value.head == head then Some(Prefix(head, verified.value.count)) else None
    }

    lemma PayloadIsGood(c: Checkpoint<D>)
      requires Valid() && c.verified == VerifiedPayload(c.head)
      ensures GoodPrefix(c)
    {
      if c.verified.Some? {
        HeadFixesChain(verified.value.envelopes, c.head);
      }
    }

    /** Fails fast on a pending record that is not the newest comment; it can only block. */
    method PeekPending(anchor: Checkpoint<D>) returns (ok: bool)
      requires anchor.pending.Some?
      ensures ok <==>
        var comments := store.world.comments;
        && comments != []
        && !comments[|comments| - 1].edited
        && comments[|comments| - 1].envelope == anchor.pending.value
        && anchor.pending.value.previous == anchor.head
    {
      var comments := store.world.comments;
      if comments == [] {
        return false;
      }
      var tail := comments[|comments| - 1];
      return !tail.edited && tail.envelope == anchor.pending.value && anchor.pending.value.previous == anchor.head;
    }

    /** Recovers a visible pending append; otherwise returns the anchored history or blocks. */
    method Load(net: Network<D>) returns (r: Result<seq<Event<D>>>)
      requires Valid() && Faithful(net, store.genuine)
      modifies this`verified, store`world, store`trace
      ensures Valid() && old(store.trace) <= store.trace && PostCount(store.trace) == PostCount(old(store.trace))
      ensures store.world.comments == old(store.world.comments)
      ensures Within(old(store.world), store.world, old(Loaded(store.world)))
      ensures r.Success? ==> store.world.checkpoint.pending.None? && r.value == old(Loaded(store.world))
      ensures r.Success? ==> verified.Some? && verified.value.head == store.world.checkpoint.head
      ensures r.Success? ==> Readable(store.world)
      ensures r.Success? ==> Readable(old(store.world)) && r.value == Committed(store.world)
      ensures r.Success? ==> AllAuthentic(store.world.comments, store.genuine)
      ensures Settled(old(store.world), store.world) || (r.Failure? && store.world == old(store.world))
      ensures AllAuthentic(store.world.comments, net.auth) ==>
        (r.Success? <==> net.locked && net.trusted && Readable(old(store.world))
                         && (old(store.world.checkpoint.pending.Some?) ==> net.fault == Fine))
    {
      hide Linked, Cached, Records, History, Pristine;
      store.Sound();
      CommittedIsLoaded(store.world);
      LoadVerdict(store.world);
      if !net.locked || !net.trusted {
        return Failure;
      }
      var anchor := store.world.checkpoint;
      if anchor.pending.Some? {
        if Readable(store.world) {
          PendingIsTail(store.world);
        }
        var visible := PeekPending(anchor);
        if !visible {
          return Failure;
        }
      }
      var read := Read(anchor, net);
      if read.Failure? {
        return Failure;
      }
      var envelopes, head := read.value.envelopes, read.value.head;
      ReadingVerdict(read.value, store.world.comments);
      if anchor.pending.Some? {
        if envelopes == [] || envelopes[|envelopes| - 1] != anchor.pending.value || anchor.pending.value.previous != anchor.head {
          return Failure;
        }
        var replacement := Checkpoint(head, None, VerifiedPayload(head));
        PayloadIsGood(replacement);
        assert |store.world.comments| == |Records(Some(anchor.pending.value.digest))|;
        PostCountAppend(store.trace, [Commit(replacement.verified)]);
        var ok := store.Replace(anchor, replacement, net.fault, Commit(replacement.verified));
        if !ok {
          return Failure;
        }
        anchor := replacement;
      }
      if head != anchor.head {
        return Failure;
      }
      return Success(Events(envelopes));
    }

    /**
     * Writes the intent, POSTs once, and reports success only after a later read has seen the record committed.
     * Re-appending a committed event is a no-op.
     */
    method Append(event: Event<D>, before: Network<D>, prepare: WriteFault, fate: Fate, after: Network<D>)
      returns (r: Result<seq<Event<D>>>)
      requires Valid() && Faithful(before, store.genuine) && Faithful(after, store.genuine)
      modifies this`verified, store`world, store`trace
      ensures Valid() && old(store.trace) <= store.trace
      ensures PostCount(store.trace) <= PostCount(old(store.trace)) + 1
      ensures old(store.world.comments) <= store.world.comments
      ensures event in old(Loaded(store.world)) ==> PostCount(store.trace) == PostCount(old(store.trace))
      ensures Within(old(store.world), store.world, old(Loaded(store.world)) + [event])
      ensures r.Success? ==> event.id != ""
      ensures r.Success? ==> Readable(store.world) && AllAuthentic(store.world.comments, store.genuine)
      ensures r.Success? ==> event in old(Loaded(store.world)) || NewId(old(Loaded(store.world)), event.id)
      ensures !NewId(old(Loaded(store.world)), event.id) ==> Within(old(store.world), store.world, old(Loaded(store.world)))
      ensures r.Success? ==>
        var known := old(Loaded(store.world));
        && r.value == Committed(store.world) == (if event in known then known else known + [event])
        && store.world.checkpoint.pending.None?
      ensures
        && Readable(old(store.world))
        && Smooth(before, prepare, fate, after, store.world.comments)
        && event.id != ""
        && (event in old(Loaded(store.world)) || NewId(old(Loaded(store.world)), event.id))
        ==> r.Success?
    {
      hide Linked, Cached, Pristine, Records, Legal, After;
      store.Sound();
      ghost var first := store.world;
      var loaded := Load(before);
      if loaded.Failure? {
        return Failure;
      }
      store.Sound();
      if event.id == "" {
        return Failure;
      }
      var events := loaded.value;
      for i := 0 to |events|
        invariant forall k | 0 <= k < i :: events[k].id != event.id
      {
        if events[i].id == event.id {
          if events[i] != event {
            ConflictingId(events, i, event);
            return Failure;
          }
          return Success(events);
        }
      }
      assert event !in events;
      if !before.locked || !before.trusted {
        return Failure;
      }
      if store.world.checkpoint.pending.Some? {
        return Failure;
      }
      LoadVerdict(first);
      r := Write(event, prepare, fate, after);
    }

    /** Overwrites the cell with the intent to append `event`. */
    method Intend(event: Event<D>, prepare: WriteFault) returns (ok: bool)
      requires Valid()
      requires store.world.checkpoint.pending.None? && NewId(Committed(store.world), event.id)
      modifies store`world, store`trace
      ensures Valid() && old(store.trace) <= store.trace && PostCount(store.trace) == PostCount(old(store.trace))
      ensures store.world.comments == old(store.world.comments)
      ensures store.world.checkpoint.head == old(store.world.checkpoint.head)
      ensures prepare == LostBefore ==> store.world == old(store.world)
      ensures prepare != LostBefore ==>
        store.world.checkpoint.pending == Some(Sealed(store.world.checkpoint.head, event)) && !store.world.sent && store.world.outstanding.None?
      ensures ok <==> prepare == Fine
    {
      hide Linked, Cached, Pristine, Records;
      var anchor := store.world.checkpoint;
      var envelope := Envelope(anchor.head, event, Digest(anchor.head, event));
      var prepared := Checkpoint(anchor.head, Some(envelope), VerifiedPayload(anchor.head));
      PayloadIsGood(prepared);
      PostCountAppend(store.trace, [Prepare(event, prepared.verified)]);
      ok := store.Replace(anchor, prepared, prepare, Prepare(event, prepared.verified));
    }

    /** Writes the intent, then POSTs it once. */
    method Post(event: Event<D>, prepare: WriteFault, fate: Fate) returns (answered: bool)
      requires Valid()
      requires store.world.checkpoint.pending.None? && NewId(Committed(store.world), event.id)
      modifies store`world, store`trace
      ensures Valid() && old(store.trace) <= store.trace
      ensures PostCount(store.trace) == PostCount(old(store.trace)) + (if prepare == Fine && fate.issued then 1 else 0)
      ensures old(store.world.comments) <= store.world.comments
      ensures Within(old(store.world), store.world, old(Committed(store.world)) + [event])
      ensures answered ==> Loaded(store.world) == old(Committed(store.world)) + [event] && store.world.checkpoint.pending.Some?
      ensures
        && Envelopes(old(store.world.comments)) == Records(old(store.world.checkpoint.head))
        && prepare == Fine && fate == Fate(true, true, fate.wish, true)
        ==> answered && Readable(store.world)
    {
      hide Linked, Cached, Pristine, Records;
      ghost var known := store.world.comments;
      var ok := Intend(event, prepare);
      if !ok {
        return false;
      }
      answered := store.Append(fate);
      if verified.Some? {
        CacheOutlives(verified.value, known, store.world.comments);
      }
      ghost var envelope := store.world.checkpoint.pending.value;
      assert Envelopes(known + [Comment(Above(known, fate.wish), false, envelope)]) == Envelopes(known) + [envelope];
    }

    /** The writing half of an append: intent, POST, and the read that commits. */
    method Write(event: Event<D>, prepare: WriteFault, fate: Fate, after: Network<D>) returns (r: Result<seq<Event<D>>>)
      requires Valid() && Faithful(after, store.genuine)
      requires store.world.checkpoint.pending.None? && NewId(Committed(store.world), event.id)
      modifies this`verified, store`world, store`trace
      ensures Valid() && old(store.trace) <= store.trace
      ensures PostCount(store.trace) == PostCount(old(store.trace)) + (if prepare == Fine && fate.issued then 1 else 0)
      ensures old(store.world.comments) <= store.world.comments
      ensures Within(old(store.world), store.world, old(Committed(store.world)) + [event])
      ensures r.Success? ==> store.world.checkpoint.pending.None?
      ensures r.Success? ==> Readable(store.world) && AllAuthentic(store.world.comments, store.genuine)
      ensures r.Success? ==> r.value == Committed(store.world) == old(Committed(store.world)) + [event]
      ensures
        && Envelopes(old(store.world.comments)) == Records(old(store.world.checkpoint.head))
        && prepare == Fine && fate == Fate(true, true, fate.wish, true)
        && Unhindered(after) && AllAuthentic(store.world.comments, after.auth)
        ==> r.Success?
    {
      hide Linked, Cached, Pristine, Records;
      var answered := Post(event, prepare, fate);
      if !answered {
        return Failure;
      }
      r := Load(after);
    }

    /** Clears a stranded intent that a complete read proves absent; the operator names its exact digest. */
    method ReconcilePending(expected: Digest<D>, net: Network<D>) returns (r: Result<seq<Event<D>>>)
      requires Valid() && Faithful(net, store.genuine)
      modifies this`verified, store`world, store`trace
      ensures Valid() && old(store.trace) <= store.trace
      ensures store.world.comments == old(store.world.comments)
      ensures Committed(store.world) == old(Committed(store.world))
      ensures Within(old(store.world), store.world, old(Loaded(store.world)))
      ensures r.Success? ==> r.value == Committed(store.world) && store.world.checkpoint.pending.None?
      ensures r.Success? ==> AllAuthentic(store.world.comments, store.genuine)
      ensures AllAuthentic(store.world.comments, net.auth) ==>
        (r.Success? <==>
           var c := old(store.world.checkpoint);
           && net.locked && net.trusted && net.fault == Fine
           && c.pending.Some? && c.pending.value.digest == expected
           && Envelopes(store.world.comments) == Records(c.head))
    {
      hide Linked, Cached, Pristine;
      store.Sound();
      if !net.locked || !net.trusted {
        return Failure;
      }
      var anchor := store.world.checkpoint;
      if anchor.pending.None? || anchor.pending.value.digest != expected || anchor.pending.value.previous != anchor.head {
        return Failure;
      }
      ReadingTheHead(store.world.comments, anchor.head);
      var read := Read(anchor, net);
      if read.Failure? {
        return Failure;
      }
      ReadingVerdict(read.value, store.world.comments);
      var pending := anchor.pending.value;
      PendingIsNotCommitted(anchor);
      if pending in read.value.envelopes || read.value.head != anchor.head {
        return Failure;
      }
      var replacement := Checkpoint(anchor.head, None, VerifiedPayload(anchor.head));
      PayloadIsGood(replacement);
      var ok := store.Replace(anchor, replacement, net.fault, Clear(replacement.verified));
      if !ok {
        return Failure;
      }
      EventsOfRecords<D>(anchor.head);
      return Success(Events(read.value.envelopes));
    }

    /** Writes this process's verified prefix to the checkpoint; the history it stands for does not change. */
    method PersistVerified(net: Network<D>) returns (r: Result<bool>)
      requires Valid()
      modifies this`verified, store`world, store`trace
      ensures Valid() && verified == old(verified) && old(store.trace) <= store.trace
      ensures Committed(store.world) == old(Committed(store.world))
      ensures store.world.checkpoint.head == old(store.world.checkpoint.head)
      ensures store.world.checkpoint.pending == old(store.world.checkpoint.pending)
      ensures Within(old(store.world), store.world, old(Loaded(store.world)))
      ensures store.world.comments == old(store.world.comments)
      ensures r.Success? ==>
        store.world.checkpoint.verified == Some(Prefix(store.world.checkpoint.head, |Committed(store.world)|))
      ensures Unhindered(net) && verified.Some? && verified.value.head == old(store.world.checkpoint.head) ==> r.Success?
    {
      store.Sound();
      CommittedIsLoaded(store.world);
      if !net.locked || !net.trusted {
        return Failure;
      }
      var anchor := store.world.checkpoint;
      var desired := VerifiedPayload(anchor.head);
      if desired.None? {
        return Failure;
      }
      var replacement := anchor.(verified := desired);
      PayloadIsGood(replacement);
      if anchor.verified == desired {
        return Success(false);
      }
      var ok := store.Replace(anchor, replacement, net.fault, Annotate(desired));
      return if ok then Success(true) else Failure;
    }

    /** The authenticated checkpoint, for a reader without the lock: that of the run as it is now. */
    method Peek(net: Network<D>) returns (anchor: Option<Checkpoint<D>>, ghost earlier: seq<Action<D>>)
      requires store.Valid()
      ensures anchor.Some? <==> net.trusted
      ensures earlier == store.trace && Legal(Initial(), earlier)
      ensures anchor.Some? ==> anchor.value == After(Initial(), earlier).checkpoint
    {
      earlier := store.trace;
      anchor := if net.trusted then Some(store.world.checkpoint) else None;
    }

    /**
     * Reads the anchored history without the lock and without a write; a visible pending record is excluded. Writers
     * may have worked on the journal since the anchor was peeked, when it had come through `earlier`.
     */
    method ReadCommitted(anchor: Checkpoint<D>, ghost earlier: seq<Action<D>>, net: Network<D>) returns (r: Result<seq<Event<D>>>)
      requires Valid() && Faithful(net, store.genuine)
      requires earlier <= store.trace && Legal(Initial(), earlier) && anchor == After(Initial(), earlier).checkpoint
      modifies this`verified
      ensures Valid()
      ensures r.Success? ==> r.value == Committed(After(Initial(), earlier)) <= Committed(store.world)
      ensures r.Success? ==> AllAuthentic(store.world.comments, store.genuine)
      ensures AllAuthentic(store.world.comments, net.auth) ==>
        (r.Success? <==>
           var stored := Envelopes(store.world.comments);
           || stored == Records(anchor.head)
           || (anchor.pending.Some? && stored == Records(anchor.head) + [anchor.pending.value]))
    {
      hide Linked, Cached, Pristine;
      store.NeverForks(earlier);
      InitialIsSound<D>();
      HistoriesNeverFork(Initial<D>(), earlier);
      LoadVerdict(After(Initial(), earlier).(comments := store.world.comments));
      ReadingTheHead(store.world.comments, anchor.head);
      var read := Read(anchor, net);
      if read.Failure? {
        return Failure;
      }
      ReadingVerdict(read.value, store.world.comments);
      var envelopes := read.value.envelopes;
      if read.value.head != anchor.head {
        if anchor.pending.None? || envelopes == [] || envelopes[|envelopes| - 1] != anchor.pending.value
           || anchor.pending.value.previous != anchor.head {
          return Failure;
        }
        DropPending(anchor, envelopes);
        envelopes := envelopes[..|envelopes| - 1];
      }
      EventsOfRecords<D>(anchor.head);
      return Success(Events(envelopes));
    }
  }

  /** Appended comments leave a cache valid. */
  lemma CacheOutlives<D(!new)>(c: Cache<D>, before: seq<Comment<D>>, now: seq<Comment<D>>)
    requires Cached(c, before) && before <= now
    ensures Cached(c, now)
  {
    assert before[..c.count] == now[..c.count];
  }

  lemma ConflictingId<D(!new)>(events: seq<Event<D>>, i: nat, event: Event<D>)
    requires UniqueIds(events) && i < |events| && events[i].id == event.id && events[i] != event
    ensures event !in events && !NewId(events, event.id)
  {
    forall j | 0 <= j < |events| ensures events[j] != event {
      if i < j {
        assert events[i].id != events[j].id;
      } else if j < i {
        assert events[j].id != events[i].id;
      }
    }
  }

  lemma {:induction false} ReadingTheHead<D(!new)>(comments: seq<Comment<D>>, head: Head<D>)
    ensures Envelopes(comments) == Records(head) <==>
      Linked(Envelopes(comments), None, HeadAfter(comments, None)) && HeadAfter(comments, None) == head
  {
    var es := Envelopes(comments);
    HeadFixesChain(es, head);
    HeadFixesChain(es, HeadAfter(comments, None));
    if es == Records(head) && es != [] {
      assert es == es[..|es| - 1] + [es[|es| - 1]];
      LinkedSnoc(es[..|es| - 1], es[|es| - 1], None, head);
    }
  }

  lemma PendingIsNotCommitted<D(!new)>(c: Checkpoint<D>)
    requires c.pending.Some? && c.pending.value == Sealed(c.head, c.pending.value.event)
    requires NewId(History(c.head), c.pending.value.event.id)
    ensures c.pending.value !in Records(c.head)
  {
    EventsOfRecords(c.head);
    var rs := Records(c.head);
    forall i | 0 <= i < |rs| ensures rs[i] != c.pending.value {
      assert Events(rs)[i] == rs[i].event;
    }
  }

  lemma {:induction false} EventsOfRecords<D(!new)>(head: Head<D>)
    ensures Events(Records(head)) == History(head)
  {
    HeadFixesChain(Records(head), head);
  }

  lemma DropPending<D(!new)>(c: Checkpoint<D>, envelopes: seq<Envelope<D>>)
    requires c.pending.Some? && c.pending.value == Sealed(c.head, c.pending.value.event)
    requires envelopes != [] && envelopes[|envelopes| - 1] == c.pending.value
    requires exists head :: envelopes == Records(head)
    ensures envelopes[..|envelopes| - 1] == Records(c.head)
    ensures envelopes == Records(c.head) + [c.pending.value]
  {
    var head :| envelopes == Records(head);
    assert head.value.previous == c.head;
    assert envelopes[..|envelopes| - 1] == Records(c.head);
  }
}
