/**
 * The append protocol as atomic steps on what is stored: the issue's comments, the one checkpoint cell, and the
 * POSTs still on their way. A caller may stop between any two steps; a POST lands now, later or never.
 */
module Protocol {
  import opened Wrappers
  import opened Chain

  datatype Prefix<D> = Prefix(head: Head<D>, count: nat)

  datatype Checkpoint<D> = Checkpoint(head: Head<D>, pending: Option<Envelope<D>>, verified: Option<Prefix<D>>)

  /** `sent`: the pending intent was POSTed. `outstanding`: that POST has not landed. `stale`: POSTs of dropped intents. */
  datatype World<D> = World(
    comments: seq<Comment<D>>,
    checkpoint: Checkpoint<D>,
    sent: bool,
    outstanding: Option<Envelope<D>>,
    stale: seq<Envelope<D>>)

  function Initial<D>(): World<D> {
    World([], Checkpoint(None, None, None), false, None, [])
  }

  function Committed<D>(w: World<D>): seq<Event<D>> {
    History(w.checkpoint.head)
  }

  /** The head a successful load ends at. */
  function LoadedHead<D>(w: World<D>): Head<D> {
    if w.checkpoint.pending.Some? then Some(w.checkpoint.pending.value.digest) else w.checkpoint.head
  }

  function Loaded<D>(w: World<D>): seq<Event<D>> {
    History(LoadedHead(w))
  }

  /** Nothing committed is lost, and nothing beyond `log` is committed or intended. */
  ghost predicate Within<D(!new)>(before: World<D>, now: World<D>, log: seq<Event<D>>) {
    Committed(before) <= Committed(now) <= Loaded(now) <= log
  }

  lemma WithinIs<D(!new)>(before: World<D>, now: World<D>, log: seq<Event<D>>)
    ensures Within(before, now, log) <==> Committed(before) <= Committed(now) <= Loaded(now) <= log
  {
  }

  predicate UniqueIds<D>(events: seq<Event<D>>) {
    forall i, j | 0 <= i < j < |events| :: events[i].id != events[j].id
  }

  predicate NewId<D>(events: seq<Event<D>>, id: string) {
    forall i | 0 <= i < |events| :: events[i].id != id
  }

  lemma UniquePart<D(!new)>(a: seq<Event<D>>, b: seq<Event<D>>)
    requires a <= b && UniqueIds(b)
    ensures UniqueIds(a)
  {
    assert forall i | 0 <= i < |a| :: a[i] == b[i];
  }

  /** A persisted prefix names the head it was read up to and the length of that history. */
  predicate GoodPrefix<D(==)>(c: Checkpoint<D>) {
    c.verified.Some? ==> c.verified.value == Prefix(c.head, |History(c.head)|)
  }

  /** The effect of overwriting the cell: an intent that is dropped leaves its POST behind as stale. */
  function Replaced<D(==)>(w: World<D>, c: Checkpoint<D>): World<D> {
    if c.pending == w.checkpoint.pending then
      w.(checkpoint := c)
    else
      World(w.comments, c, false, None, w.stale + (if w.outstanding.Some? then [w.outstanding.value] else []))
  }

  /** `Intrude` is a comment of someone else; `LandLate` is a POST that lands although its intent was dropped. */
  datatype Action<D> =
    | Prepare(event: Event<D>, verified: Option<Prefix<D>>)
    | Post
    | Land(id: int)
    | LandLate(index: nat, id: int)
    | Intrude(comment: Comment<D>)
    | Commit(verified: Option<Prefix<D>>)
    | Clear(verified: Option<Prefix<D>>)
    | Annotate(verified: Option<Prefix<D>>)

  function Target<D>(w: World<D>, a: Action<D>): Checkpoint<D>
    requires a.Commit? ==> w.checkpoint.pending.Some?
  {
    var head := w.checkpoint.head;
    match a
    case Prepare(event, verified) => Checkpoint(head, Some(Sealed(head, event)), verified)
    case Commit(verified) => Checkpoint(Some(w.checkpoint.pending.value.digest), None, verified)
    case Clear(verified) => Checkpoint(head, None, verified)
    case Annotate(verified) => w.checkpoint.(verified := verified)
    case _ => w.checkpoint
  }

  ghost predicate Enabled<D>(w: World<D>, a: Action<D>) {
    var c := w.checkpoint;
    var stored := Envelopes(w.comments);
    match a
    case Prepare(event, _) => c.pending.None? && NewId(History(c.head), event.id) && GoodPrefix(Target(w, a))
    case Post => c.pending.Some? && !w.sent
    case Land(id) => w.outstanding.Some? && id !in Ids(w.comments)
    case LandLate(index, id) => index < |w.stale| && id !in Ids(w.comments)
    case Intrude(comment) => !comment.edited && comment.id !in Ids(w.comments)
    case Commit(_) => c.pending.Some? && stored == Records(c.head) + [c.pending.value] && GoodPrefix(Target(w, a))
    case Clear(_) => c.pending.Some? && stored == Records(c.head) && GoodPrefix(Target(w, a))
    case Annotate(_) => GoodPrefix(Target(w, a))
  }

  ghost function Effect<D>(w: World<D>, a: Action<D>): World<D>
    requires Enabled(w, a)
  {
    match a
    case Post => w.(sent := true, outstanding := w.checkpoint.pending)
    case Land(id) => w.(comments := w.comments + [Comment(id, false, w.outstanding.value)], outstanding := None)
    case LandLate(i, id) =>
      w.(comments := w.comments + [Comment(id, false, w.stale[i])], stale := w.stale[..i] + w.stale[i + 1..])
    case Intrude(comment) => w.(comments := w.comments + [comment])
    case _ => Replaced(w, Target(w, a))
  }

  ghost predicate Legal<D>(w: World<D>, run: seq<Action<D>>)
    decreases |run|
  {
    run != [] ==> Enabled(w, run[0]) && Legal(Effect(w, run[0]), run[1..])
  }

  ghost function After<D>(w: World<D>, run: seq<Action<D>>): World<D>
    requires Legal(w, run)
    decreases |run|
  {
    if run == [] then w else After(Effect(w, run[0]), run[1..])
  }

  lemma {:induction false} RunAppend<D(!new)>(w: World<D>, a: seq<Action<D>>, b: seq<Action<D>>)
    requires Legal(w, a)
    ensures Legal(w, a + b) <==> Legal(After(w, a), b)
    ensures Legal(w, a + b) ==> After(w, a + b) == After(After(w, a), b)
    decreases |a|
  {
    if a == [] {
      assert a + b == b;
    } else {
      assert (a + b)[1..] == a[1..] + b;
      RunAppend(Effect(w, a[0]), a[1..], b);
    }
  }

  lemma {:induction false} LegalPrefix<D(!new)>(w: World<D>, a: seq<Action<D>>, b: seq<Action<D>>)
    requires a <= b && Legal(w, b)
    ensures Legal(w, a)
    decreases |a|
  {
    if a != [] {
      assert a[1..] <= b[1..];
      LegalPrefix(Effect(w, a[0]), a[1..], b[1..]);
    }
  }

  // ---------------------------------------------------------------- what every run keeps

  /** The cell is always sound: distinct identities, and a pending intent that extends the committed history. */
  ghost predicate Anchored<D>(w: World<D>) {
    var c := w.checkpoint;
    && UniqueIds(History(c.head))
    && GoodPrefix(c)
    && (c.pending.Some? ==>
          && c.pending.value == Sealed(c.head, c.pending.value.event)
          && NewId(History(c.head), c.pending.value.event.id))
    && Pristine(w.comments, {})
  }

  lemma CommittedIsLoaded<D(!new)>(w: World<D>)
    requires Anchored(w)
    ensures Committed(w) <= Loaded(w)
  {
  }

  lemma PristineSnoc<D(!new)>(comments: seq<Comment<D>>, c: Comment<D>)
    requires Pristine(comments, {}) && !c.edited && c.id !in Ids(comments)
    ensures Pristine(comments + [c], {})
  {
    var all := comments + [c];
    forall i, j | 0 <= i < j < |all| ensures all[i].id != all[j].id {
      if j == |comments| {
        assert comments[i] in comments;
      }
    }
  }

  lemma AnchoredStep<D(!new)>(w: World<D>, a: Action<D>)
    requires Anchored(w) && Enabled(w, a)
    ensures Anchored(Effect(w, a))
    ensures History(w.checkpoint.head) <= History(Effect(w, a).checkpoint.head)
    ensures w.comments <= Effect(w, a).comments
  {
    match a
    case Land(id) => PristineSnoc(w.comments, Comment(id, false, w.outstanding.value));
    case LandLate(i, id) => PristineSnoc(w.comments, Comment(id, false, w.stale[i]));
    case Intrude(comment) => PristineSnoc(w.comments, comment);
    case Commit(_) =>
      var p := w.checkpoint.pending.value;
      assert History(Some(p.digest)) == History(w.checkpoint.head) + [p.event];
    case _ =>
  }

  /**
   * No fork, over every run: committed histories only ever grow at the end, comments are only appended, and event
   * identities stay distinct, with any crashes, delays, operator clears and late landings in between.
   */
  lemma {:induction false} HistoriesNeverFork<D(!new)>(w: World<D>, run: seq<Action<D>>)
    requires Anchored(w) && Legal(w, run)
    ensures Anchored(After(w, run))
    ensures Committed(w) <= Committed(After(w, run))
    ensures w.comments <= After(w, run).comments
    decreases |run|
  {
    if run != [] {
      AnchoredStep(w, run[0]);
      HistoriesNeverFork(Effect(w, run[0]), run[1..]);
    }
  }

  /** The comments are the committed chain, or that chain and exactly the pending record. */
  ghost predicate Tidy<D>(w: World<D>) {
    var c := w.checkpoint;
    var stored := Envelopes(w.comments);
    || (stored == Records(c.head) && (w.outstanding.Some? ==> w.sent && c.pending == w.outstanding))
    || (c.pending.Some? && w.sent && w.outstanding.None? && stored == Records(c.head) + [c.pending.value])
  }

  predicate Strays<D>(a: Action<D>) {
    a.LandLate? || a.Intrude?
  }

  lemma TidyStep<D(!new)>(w: World<D>, a: Action<D>)
    requires Anchored(w) && Tidy(w) && Enabled(w, a) && !Strays(a)
    ensures Tidy(Effect(w, a))
  {
    var w' := Effect(w, a);
    match a
    case Land(id) =>
      assert Envelopes(w'.comments) == Envelopes(w.comments) + [w.outstanding.value];
    case Commit(_) =>
      assert Records(w'.checkpoint.head) == Envelopes(w.comments);
    case _ =>
  }

  /** As long as no POST lands after its intent was cleared and nobody else comments, every reachable state is tidy. */
  lemma {:induction false} TidyWithoutLateLandings<D(!new)>(w: World<D>, run: seq<Action<D>>)
    requires Anchored(w) && Tidy(w) && Legal(w, run)
    requires forall a <- run :: !Strays(a)
    ensures Tidy(After(w, run))
    decreases |run|
  {
    if run != [] {
      assert run[0] in run;
      TidyStep(w, run[0]);
      AnchoredStep(w, run[0]);
      TidyWithoutLateLandings(Effect(w, run[0]), run[1..]);
    }
  }

  lemma InitialIsSound<D(!new)>()
    ensures Anchored(Initial<D>()) && Tidy(Initial<D>())
  {
  }

  /** The stored comments are the committed chain and, if there is one, the pending record. */
  ghost predicate Readable<D>(w: World<D>) {
    var c := w.checkpoint;
    Envelopes(w.comments) == Records(c.head) + (if c.pending.Some? then [c.pending.value] else [])
  }

  /** A tidy journal is stuck exactly while a pending intent has not landed. */
  lemma TidyIsReadable<D(!new)>(w: World<D>)
    requires Anchored(w) && Tidy(w)
    ensures Readable(w) <==> (w.checkpoint.pending.Some? ==> Envelopes(w.comments) != Records(w.checkpoint.head))
  {
    assert Records(w.checkpoint.head) + [] == Records(w.checkpoint.head);
  }

  /** The committed chain is always stored, with whatever else landed after it. */
  ghost predicate Rooted<D>(w: World<D>) {
    Records(w.checkpoint.head) <= Envelopes(w.comments)
  }

  lemma RootedStep<D(!new)>(w: World<D>, a: Action<D>)
    requires Anchored(w) && Rooted(w) && Enabled(w, a)
    ensures Rooted(Effect(w, a))
  {
    if a.Commit? {
      assert Records(Effect(w, a).checkpoint.head) == Envelopes(w.comments);
    } else {
      assert Envelopes(w.comments) <= Envelopes(Effect(w, a).comments);
    }
  }

  lemma {:induction false} AlwaysRooted<D(!new)>(w: World<D>, run: seq<Action<D>>)
    requires Anchored(w) && Rooted(w) && Legal(w, run)
    ensures Anchored(After(w, run)) && Rooted(After(w, run))
    decreases |run|
  {
    if run != [] {
      RootedStep(w, run[0]);
      AnchoredStep(w, run[0]);
      AlwaysRooted(Effect(w, run[0]), run[1..]);
    }
  }

  function StrayRecord<D>(w: World<D>, a: Action<D>): Envelope<D>
    requires Strays(a) && (a.LandLate? ==> a.index < |w.stale|)
  {
    if a.LandLate? then w.stale[a.index] else a.comment.envelope
  }

  /**
   * What a stray record does in any reachable journal, whether a dropped POST that lands or someone else's comment: it
   * blocks every load, unless the very same record is pending and still missing, and then it stands in for that record.
   */
  lemma {:induction false} LateLandingBlocks<D(!new)>(run: seq<Action<D>>, a: Action<D>)
    requires Legal(Initial(), run) && Strays(a) && Enabled(After(Initial(), run), a)
    ensures var w := After(Initial(), run);
      Readable(Effect(w, a))
      <==> w.checkpoint.pending == Some(StrayRecord(w, a)) && Envelopes(w.comments) == Records(w.checkpoint.head)
  {
    InitialIsSound<D>();
    AlwaysRooted(Initial<D>(), run);
    var w := After(Initial(), run);
    var w' := Effect(w, a);
    var c := w.checkpoint;
    var expected := Records(c.head) + (if c.pending.Some? then [c.pending.value] else []);
    assert Envelopes(w'.comments) == Envelopes(w.comments) + [StrayRecord(w, a)];
    if Envelopes(w.comments) == Records(c.head) && c.pending.Some? {
      assert expected[|Records(c.head)|] == c.pending.value;
      assert Envelopes(w'.comments)[|Records(c.head)|] == StrayRecord(w, a);
    } else {
      assert |Envelopes(w'.comments)| > |expected|;
    }
  }

  /** An overwrite of the cell; what it writes was decided when the cell was read. */
  predicate Writes<D>(a: Action<D>) {
    a.Prepare? || a.Commit? || a.Clear? || a.Annotate?
  }

  /** The same landing once the write has taken effect: if the write dropped the intent, its POST has become stale. */
  function Afterwards<D>(w: World<D>, write: Action<D>, landing: Action<D>): Action<D> {
    if landing.Land? && !write.Annotate? then LandLate(|w.stale|, landing.id) else landing
  }

  /**
   * A record that lands between an operation's reads and its overwrite of the cell leaves the same world as one that
   * lands right after the operation: reading and writing in one step loses no run.
   */
  lemma LandingsCommute<D(!new)>(w: World<D>, write: Action<D>, landing: Action<D>)
    requires Writes(write) && (Strays(landing) || landing.Land?)
    requires Enabled(w, write) && Enabled(w, landing)
    ensures Effect(w, landing).checkpoint == w.checkpoint
    ensures Enabled(Effect(w, write), Afterwards(w, write, landing))
    ensures Effect(Effect(w, write), Afterwards(w, write, landing)) == Replaced(Effect(w, landing), Target(w, write))
  {
    var now, later := Effect(w, write), Afterwards(w, write, landing);
    if later.LandLate? {
      var dropped := now.stale[|w.stale|..];
      assert now.stale == w.stale + dropped;
      assert now.stale[..later.index] + now.stale[later.index + 1..] == Replaced(Effect(w, landing), Target(w, write)).stale;
    }
  }

  /** Once two records stand beyond the committed chain, nothing that starts afterwards can commit or read any more. */
  lemma {:induction false} TwoStraysBlockForGood<D(!new)>(w: World<D>, run: seq<Action<D>>)
    requires Legal(w, run) && |w.comments| > |Records(w.checkpoint.head)| + 1
    ensures After(w, run).checkpoint.head == w.checkpoint.head && !Readable(After(w, run))
    decreases |run|
  {
    if run != [] {
      assert |Envelopes(w.comments)| == |w.comments|;
      TwoStraysBlockForGood(Effect(w, run[0]), run[1..]);
    }
  }

  function PostCount<D>(run: seq<Action<D>>): nat {
    if run == [] then 0 else (if run[0].Post? then 1 else 0) + PostCount(run[1..])
  }

  lemma {:induction false} PostCountAppend<D(!new)>(a: seq<Action<D>>, b: seq<Action<D>>)
    ensures PostCount(a + b) == PostCount(a) + PostCount(b)
    decreases |a|
  {
    if a == [] {
      assert a + b == b;
    } else {
      assert (a + b)[1..] == a[1..] + b;
      PostCountAppend(a[1..], b);
    }
  }

  lemma {:induction false} NoPostWithoutIntent<D(!new)>(w: World<D>, run: seq<Action<D>>)
    requires Legal(w, run) && (w.sent || w.checkpoint.pending.None?)
    requires forall a <- run :: !a.Prepare?
    ensures forall a <- run :: !a.Post?
    decreases |run|
  {
    if run != [] {
      assert run[0] in run;
      NoPostWithoutIntent(Effect(w, run[0]), run[1..]);
    }
  }

  /** Every intent is POSTed at most once: between two POSTs of a run a new intent was written. */
  lemma {:induction false} OnePostPerIntent<D(!new)>(w: World<D>, run: seq<Action<D>>, i: nat, j: nat)
    requires Legal(w, run) && i < j < |run| && run[i].Post? && run[j].Post?
    ensures exists k :: i < k < j && run[k].Prepare?
    decreases |run|
  {
    var rest := run[1..];
    if i > 0 {
      OnePostPerIntent(Effect(w, run[0]), rest, i - 1, j - 1);
      var k :| i - 1 < k < j - 1 && rest[k].Prepare?;
      assert run[k + 1].Prepare?;
    } else if forall k | 0 < k < j :: !run[k].Prepare? {
      LegalPrefix(Effect(w, run[0]), rest[..j], rest);
      assert forall k | 0 <= k < j :: rest[..j][k] == run[k + 1];
      assert run[j] in rest[..j];
      NoPostWithoutIntent(Effect(w, run[0]), rest[..j]);
    }
  }
}
