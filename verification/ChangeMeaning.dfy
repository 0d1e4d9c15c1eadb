/** What Change Scope accepts, selects and says, in the terms of its policy document and of Git's listing. */
module ChangeMeaning {
  import opened Wrappers
  import opened Inventory
  import opened ChangeScope

  // ---------------------------------------------------------------- paths and records

  function Joined(parts: seq<string>, separator: char): string
    requires parts != []
  {
    if |parts| == 1 then parts[0] else parts[0] + [separator] + Joined(parts[1..], separator)
  }

  /** Splitting gives the parts between the separators: joined again they are the text, and none contains a separator. */
  lemma {:induction false} SplitMeans(text: string, separator: char)
    ensures Joined(Split(text, separator), separator) == text
    ensures forall part <- Split(text, separator) :: separator !in part
    decreases |text|
  {
    if text != [] {
      var rest := Split(text[1..], separator);
      SplitMeans(text[1..], separator);
      var all := Split(text, separator);
      if text[0] == separator {
        assert all == [""] + rest && all[1..] == rest;
        assert Joined(all, separator) == "" + [separator] + Joined(rest, separator);
      } else {
        assert all == [[text[0]] + rest[0]] + rest[1..];
        assert all[1..] == rest[1..];
        assert text == [text[0]] + text[1..];
        if |rest| > 1 {
          assert Joined(all, separator) == ([text[0]] + rest[0]) + [separator] + Joined(rest[1..], separator);
          assert Joined(rest, separator) == rest[0] + [separator] + Joined(rest[1..], separator);
        }
        forall part | part in all ensures separator !in part {
          if part == all[0] {
            assert rest[0] in rest;
          } else {
            assert part in rest;
          }
        }
      }
    }
  }

  /** And no other parts do: a text joined from parts without a separator splits into those parts. */
  lemma {:induction false} SplitJoined(parts: seq<string>, separator: char)
    requires parts != [] && forall part <- parts :: separator !in part
    ensures Split(Joined(parts, separator), separator) == parts
    decreases |parts|
  {
    if |parts| == 1 {
      SplitPart(parts[0], separator);
    } else {
      SplitFirst(parts[0], Joined(parts[1..], separator), separator);
      SplitJoined(parts[1..], separator);
    }
  }

  lemma {:induction false} SplitPart(part: string, separator: char)
    requires separator !in part
    ensures Split(part, separator) == [part]
    decreases |part|
  {
    if part != [] {
      SplitPart(part[1..], separator);
      assert [part[0]] + part[1..] == part;
    }
  }

  lemma {:induction false} SplitFirst(part: string, rest: string, separator: char)
    requires separator !in part
    ensures Split(part + [separator] + rest, separator) == [part] + Split(rest, separator)
    decreases |part|
  {
    var text := part + [separator] + rest;
    if part == [] {
      assert text[1..] == rest;
    } else {
      SplitFirst(part[1..], rest, separator);
      assert text[1..] == part[1..] + [separator] + rest;
      assert [part[0]] + part[1..] == part;
    }
  }

  /** Parts between slashes, none of them empty, the same directory, or the one above. */
  predicate Spells(parts: seq<string>, path: string) {
    && parts != [] && Joined(parts, '/') == path
    && forall part <- parts :: '/' !in part && part != "" && part != "." && part != ".."
  }

  ghost predicate IsRelative(path: string) {
    '\\' !in path && exists parts :: Spells(parts, path)
  }

  lemma RelativeMeans(path: string)
    ensures CanonicalPath(path) <==> IsRelative(path)
  {
    var parts := Split(path, '/');
    SplitMeans(path, '/');
    assert parts[0] in parts;
    if CanonicalPath(path) {
      assert Spells(parts, path);
    }
    if IsRelative(path) {
      var other :| Spells(other, path);
      SplitJoined(other, '/');
    }
  }

  /** A change as it is, or a rename or copy with a similarity of at most a hundred percent, which may be left out. */
  predicate IsStatus(status: string) {
    || status == "A" || status == "D" || status == "M" || status == "T"
    || (&& status != "" && (status[0] == 'C' || status[0] == 'R')
        && var score := status[1..];
        && (forall c <- score :: c in "0123456789")
        && (|score| <= 2 || score == "100" || (|score| == 3 && score[0] == '0')))
  }

  lemma StatusMeans(status: string)
    ensures ValidStatus(status) <==> IsStatus(status)
  {
    if status != "" {
      forall c: char ensures c in "ADMT" <==> (c == 'A' || c == 'D' || c == 'M' || c == 'T') {
      }
      forall c: char ensures c in "CR" <==> (c == 'C' || c == 'R') {
      }
      if |status| == 1 {
        assert status == [status[0]] && status[1..] == "";
      }
      ScoreMeans(status[1..]);
    }
  }

  lemma {:induction false} ScoreMeans(score: string)
    ensures Digits(score) <==> forall c <- score :: c in "0123456789"
    ensures Digits(score) && |score| <= 3 ==>
      (Number(score) <= 100 <==> |score| <= 2 || score == "100" || (|score| == 3 && score[0] == '0'))
  {
    hide Number;
    forall c: char ensures c in "0123456789" <==> '0' <= c <= '9' {
      DecimalDigit(c);
    }
    if Digits(score) && |score| <= 3 {
      Valued(score);
      assert forall i | 0 <= i < |score| :: score[i] in score;
      assert |score| == 3 ==> (score == "100" <==> score[0] == '1' && score[1] == '0' && score[2] == '0');
    }
  }

  function Digit(c: char): int {
    c as int - '0' as int
  }

  /** The decimal value of a short number. */
  lemma {:induction false} Valued(score: string)
    requires Digits(score) && |score| <= 3
    ensures Number(score)
      == match |score|
         case 0 => 0
         case 1 => Digit(score[0])
         case 2 => 10 * Digit(score[0]) + Digit(score[1])
         case _ => 100 * Digit(score[0]) + 10 * Digit(score[1]) + Digit(score[2])
  {
    if |score| > 1 {
      var front := score[..|score| - 1];
      assert forall c <- front :: c in score;
      Valued(front);
    }
  }

  lemma DecimalDigit(c: char)
    ensures c in "0123456789" <==> '0' <= c <= '9'
  {
    if '0' <= c <= '9' {
      assert "0123456789"[c as int - '0' as int] == c;
    }
  }

  ghost predicate IsRecord(c: ChangedFile) {
    && IsStatus(c.status)
    && |c.paths| == (if c.status[0] == 'C' || c.status[0] == 'R' then 2 else 1)
    && (forall path <- c.paths :: IsRelative(path))
    && (|c.paths| == 2 ==> c.paths[0] != c.paths[1])
  }

  predicate ShareNothing(a: ChangedFile, b: ChangedFile) {
    forall path <- a.paths :: path !in b.paths
  }

  /** Each record is a known change with its paths, renames and copies with both; every path is relative, and named once. */
  ghost predicate IsInventory(changed: seq<ChangedFile>) {
    && (forall c <- changed :: IsRecord(c))
    && (forall i, j | 0 <= i < j < |changed| :: ShareNothing(changed[i], changed[j]))
  }

  predicate Unseen(c: ChangedFile, seen: set<string>) {
    forall path <- c.paths :: path !in seen
  }

  lemma {:induction false} InventoryMeans(changed: seq<ChangedFile>, seen: set<string>)
    ensures ValidInventory(changed, seen) <==> IsInventory(changed) && forall c <- changed :: Unseen(c, seen)
    decreases |changed|
  {
    hide ValidRecord, IsRecord, ShareNothing, Unseen;
    if changed != [] {
      var first, rest := changed[0], changed[1..];
      InventoryMeans(rest, seen + PathSet(first.paths));
      RecordMeans(first, seen);
      assert changed == [first] + rest;
      assert forall c :: c in changed <==> c == first || c in rest;
      forall c | c in rest ensures Unseen(c, seen + PathSet(first.paths)) <==> Unseen(c, seen) && ShareNothing(first, c) {
        UnseenMore(first, c, seen);
      }
      Separated(changed);
    }
  }

  lemma UnseenMore(first: ChangedFile, c: ChangedFile, seen: set<string>)
    ensures Unseen(c, seen + PathSet(first.paths)) <==> Unseen(c, seen) && ShareNothing(first, c)
  {
  }

  lemma Separated(changed: seq<ChangedFile>)
    requires changed != []
    ensures (forall i, j | 0 <= i < j < |changed| :: ShareNothing(changed[i], changed[j]))
      <==> && (forall i, j | 0 <= i < j < |changed[1..]| :: ShareNothing(changed[1..][i], changed[1..][j]))
           && (forall c <- changed[1..] :: ShareNothing(changed[0], c))
  {
    hide ShareNothing;
    var rest := changed[1..];
    assert forall i | 0 <= i < |rest| :: rest[i] == changed[i + 1];
    if
      && (forall i, j | 0 <= i < j < |rest| :: ShareNothing(rest[i], rest[j]))
      && (forall c <- rest :: ShareNothing(changed[0], c))
    {
      forall i, j | 0 <= i < j < |changed| ensures ShareNothing(changed[i], changed[j]) {
        assert changed[j] == rest[j - 1] && rest[j - 1] in rest;
        if i > 0 {
          assert changed[i] == rest[i - 1];
        }
      }
    }
  }

  lemma RecordMeans(c: ChangedFile, seen: set<string>)
    ensures ValidRecord(c, seen) <==> IsRecord(c) && Unseen(c, seen)
  {
    hide ValidStatus, IsStatus, CanonicalPath, IsRelative;
    StatusMeans(c.status);
    forall path ensures CanonicalPath(path) <==> IsRelative(path) {
      RelativeMeans(path);
    }
    assert c.status != "" && c.status[0] in "CR" <==> c.status != "" && (c.status[0] == 'C' || c.status[0] == 'R');
    StatusIsNotEmpty(c.status);
  }

  lemma StatusIsNotEmpty(status: string)
    ensures IsStatus(status) ==> status != ""
  {
  }

  /** The top level of a path is what stands before its first slash. */
  lemma TopLevelMeans(path: string)
    ensures '/' !in TopLevel(path)
    ensures path == TopLevel(path) || TopLevel(path) + "/" <= path
  {
    SplitMeans(path, '/');
    var parts := Split(path, '/');
    assert parts[0] in parts;
    if |parts| > 1 {
      assert path == parts[0] + "/" + Joined(parts[1..], '/');
    }
  }

  /** The rule's pattern is the path itself, the start of it, or the end of it. */
  predicate Covers(m: Match, path: string) {
    match m
    case Exact(value) => path == value
    case Prefix(value) => |value| <= |path| && path[..|value|] == value
    case Suffix(value) => |value| <= |path| && path[|path| - |value|..] == value
  }

  lemma CoversMeans(m: Match, path: string)
    ensures Matches(m, path) <==> Covers(m, path)
  {
  }

  // ---------------------------------------------------------------- what a path asks for

  /** Some rule that covers the path names the lane. */
  predicate Owns(p: Policy, path: string, lane: Lane) {
    exists rule <- p.rules :: Covers(rule.pattern, path) && lane in rule.lanes
  }

  /** Policy data that no classification reads is always exempt, the policy itself when its edit changes no route. */
  predicate Spared(path: string, preserving: bool) {
    path == "scripts/ci/hosted_runner_policy.json" || (preserving && path == "scripts/ci/scope_policy.json")
  }

  /** The path needs everything: its top level is unknown, no rule covers it, or a full rule does and it is not spared. */
  predicate Escalates(p: Policy, path: string, preserving: bool) {
    || TopLevel(path) !in p.knownTopLevels
    || (forall rule <- p.rules :: Covers(rule.pattern, path) ==> rule.lanes == {})
    || (!Spared(path, preserving) && exists rule <- p.fullRules :: Covers(rule.pattern, path))
  }

  /** The family owns a lane that some changed path asks for. */
  predicate Touched(p: Policy, paths: set<string>, family: Family) {
    family in p.families && exists path <- paths, lane <- p.families[family] :: Owns(p, path, lane)
  }

  /** Three of the four expensive families at once. */
  predicate Broad(p: Policy, paths: set<string>) {
    exists a, b, c: Family :: a != b && b != c && a != c && Touched(p, paths, a) && Touched(p, paths, b) && Touched(p, paths, c)
  }

  lemma LanesMean(p: Policy, path: string)
    ensures forall lane :: lane in PathLanes(p, path) <==> Owns(p, path, lane)
  {
    forall rule | rule in p.rules ensures Matches(rule.pattern, path) <==> Covers(rule.pattern, path) {
      CoversMeans(rule.pattern, path);
    }
  }

  lemma PathMeans(p: Policy, path: string, preserving: bool)
    ensures PathReasons(p, path, preserving) != {} <==> Escalates(p, path, preserving)
  {
    hide TopLevel, Matches;
    LanesMean(p, path);
    forall m: Match ensures Matches(m, path) <==> Covers(m, path) {
      CoversMeans(m, path);
    }
    if TopLevel(path) !in p.knownTopLevels {
      assert UnknownTopLevel(TopLevel(path)) in PathReasons(p, path, preserving);
    }
    assert PathLanes(p, path) == {} <==> forall rule <- p.rules :: Covers(rule.pattern, path) ==> rule.lanes == {} by {
      if PathLanes(p, path) == {} {
        forall rule | rule in p.rules && Covers(rule.pattern, path) ensures rule.lanes == {} {
          forall lane ensures lane !in rule.lanes {
            assert Owns(p, path, lane) || lane !in rule.lanes;
          }
        }
      }
    }
    if PathLanes(p, path) == {} {
      assert Unclassified(path) in PathReasons(p, path, preserving);
    }
    assert Exempt(path, preserving) <==> Spared(path, preserving);
    assert FullHits(p, path) != {} <==> exists rule <- p.fullRules :: Covers(rule.pattern, path) by {
      if rule :| rule in p.fullRules && Covers(rule.pattern, path) {
        assert FullRuleHit(rule.reason) in FullHits(p, path);
      }
    }
  }

  lemma FamiliesMean(p: Policy, paths: set<string>)
    ensures forall family :: family in ActiveFamilies(p, Selected(p, paths)) <==> Touched(p, paths, family)
  {
    hide PathLanes;
    forall path ensures forall lane :: lane in PathLanes(p, path) <==> Owns(p, path, lane) {
      LanesMean(p, path);
    }
    forall family | family in p.families
      ensures Selected(p, paths) * p.families[family] != {} <==> exists path <- paths, lane <- p.families[family] :: Owns(p, path, lane)
    {
      if lane :| lane in Selected(p, paths) * p.families[family] {
        var path :| path in paths && lane in PathLanes(p, path);
        assert Owns(p, path, lane);
      }
      if path, lane :| path in paths && lane in p.families[family] && Owns(p, path, lane) {
        assert lane in PathLanes(p, path) && lane in Selected(p, paths);
        assert lane in Selected(p, paths) * p.families[family];
      }
    }
  }

  lemma SomeThree(s: set<Family>) returns (a: Family, b: Family, c: Family)
    requires |s| >= 3
    ensures a != b && b != c && a != c && a in s && b in s && c in s
  {
    a :| a in s;
    var t := s - {a};
    assert |t| == |s| - 1;
    b :| b in t;
    var u := t - {b};
    assert |u| == |t| - 1;
    c :| c in u;
  }

  lemma ThreeAreEnough(s: set<Family>, a: Family, b: Family, c: Family)
    requires a != b && b != c && a != c && a in s && b in s && c in s
    ensures |s| >= 3
  {
    var three := {a, b, c};
    assert |three| == |{a, b}| + 1;
    SubsetSize(three, s);
  }

  /** Paths force full exactly when one of them escalates, or together they are broad. */
  lemma PathsMean(p: Policy, paths: set<string>, preserving: bool)
    ensures FullReasons(p, paths, preserving) != {} <==> (exists path <- paths :: Escalates(p, path, preserving)) || Broad(p, paths)
  {
    hide PathReasons, ActiveFamilies, Selected, Escalates, Touched;
    forall path | path in paths ensures PathReasons(p, path, preserving) != {} <==> Escalates(p, path, preserving) {
      PathMeans(p, path, preserving);
    }
    assert PerPathReasons(p, paths, preserving) != {} <==> exists path <- paths :: Escalates(p, path, preserving) by {
      if reason :| reason in PerPathReasons(p, paths, preserving) {
        var path :| path in paths && reason in PathReasons(p, path, preserving);
        assert Escalates(p, path, preserving);
      }
      if path :| path in paths && Escalates(p, path, preserving) {
        var reason :| reason in PathReasons(p, path, preserving);
        assert reason in PerPathReasons(p, paths, preserving);
      }
    }
    FamiliesMean(p, paths);
    var active := ActiveFamilies(p, Selected(p, paths));
    if |active| >= 3 {
      var a, b, c := SomeThree(active);
      assert Touched(p, paths, a) && Touched(p, paths, b) && Touched(p, paths, c);
    }
    if Broad(p, paths) {
      var a, b, c: Family :|
        a != b && b != c && a != c && Touched(p, paths, a) && Touched(p, paths, b) && Touched(p, paths, c);
      ThreeAreEnough(active, a, b, c);
    }
  }

  // ---------------------------------------------------------------- the classification

  /** The request itself asks for everything. */
  predicate AsksForFull(q: Query) {
    || q.forceFull || "ci:full" in q.labels || q.event == Schedule || q.unverifiable.Some?
    || (q.event == WorkflowDispatch && q.requested == {})
  }

  /** What classification accepts: exact commits, a sound inventory, and options only where their event allows them. */
  ghost predicate Acceptable(p: Policy, changed: seq<ChangedFile>, q: Query) {
    && |q.base| == 40 && |q.head| == 40 && (forall c <- q.base + q.head :: c in "0123456789abcdefABCDEF")
    && IsInventory(changed)
    && (q.unverifiable.Some? ==> q.event == Push && changed == [] && q.unverifiable.value != "")
    && (q.requested == {} || (q.event == WorkflowDispatch && forall lane <- q.requested :: lane in p.lanes))
    && (q.skip.Some? ==>
          (q.event == Schedule || q.event == WorkflowDispatch) && q.requested == {} && !q.draft && q.skip.value != "")
  }

  /** The lanes a manifest selects. */
  predicate Chooses(p: Policy, changed: seq<ChangedFile>, q: Query, lane: Lane) {
    if q.draft then lane == DocsStatic || lane == CiContract
    else if q.skip.Some? then false
    else if q.requested != {} then lane in q.requested
    else if NeedsFull(p, changed, q) then lane in p.lanes
    else exists path <- AllPaths(changed) :: Owns(p, path, lane)
  }

  predicate NeedsFull(p: Policy, changed: seq<ChangedFile>, q: Query) {
    || AsksForFull(q)
    || (exists path <- AllPaths(changed) :: Escalates(p, path, q.preserving))
    || Broad(p, AllPaths(changed))
  }

  function ModeOf(p: Policy, changed: seq<ChangedFile>, q: Query): Mode {
    if q.draft then Draft
    else if q.skip.Some? then Focused
    else if q.requested != {} then Requested
    else if NeedsFull(p, changed, q) then Full
    else Focused
  }

  lemma HexDigit(c: char)
    ensures c in "0123456789abcdefABCDEF" <==> Hexadecimal(c)
  {
    var digits := "0123456789abcdefABCDEF";
    if '0' <= c <= '9' {
      assert digits[c as int - '0' as int] == c;
    } else if 'a' <= c <= 'f' {
      assert digits[c as int - 'a' as int + 10] == c;
    } else if 'A' <= c <= 'F' {
      assert digits[c as int - 'A' as int + 16] == c;
    }
  }

  lemma AcceptableMeans(p: Policy, changed: seq<ChangedFile>, q: Query)
    ensures ValidQuery(p, changed, q) <==> Acceptable(p, changed, q)
  {
    hide ValidInventory, IsInventory, ValidSha;
    InventoryMeans(changed, {});
    assert forall c <- changed :: Unseen(c, {});
    HashesMean(q.base, q.head);
  }

  lemma FullMeans(p: Policy, changed: seq<ChangedFile>, q: Query)
    ensures AllReasons(p, changed, q) != {} <==> NeedsFull(p, changed, q)
  {
    hide FullReasons, Escalates, Broad, AllPaths;
    PathsMean(p, AllPaths(changed), q.preserving);
    assert QueryReasons(q) != {} <==> AsksForFull(q) by { QueryMeans(q); }
  }

  lemma QueryMeans(q: Query)
    ensures QueryReasons(q) != {} <==> AsksForFull(q)
  {
    var all := QueryReasons(q);
    if q.forceFull {
      assert ForcedFull in all;
    }
    if FULL_LABEL in q.labels {
      assert FullLabel in all;
    }
    if (q.event == WorkflowDispatch && q.requested == {}) || q.event == Schedule {
      assert FullEvent(q.event) in all;
    }
    if q.unverifiable.Some? {
      assert UnverifiableBase in all;
    }
  }

  lemma SelectedMeans(p: Policy, paths: set<string>)
    ensures forall lane :: lane in Selected(p, paths) <==> exists path <- paths :: Owns(p, path, lane)
  {
    hide PathLanes, Owns;
    forall lane ensures lane in Selected(p, paths) <==> exists path <- paths :: Owns(p, path, lane) {
      if lane in Selected(p, paths) {
        var path :| path in paths && lane in PathLanes(p, path);
        LanesMean(p, path);
      }
      if path :| path in paths && Owns(p, path, lane) {
        LanesMean(p, path);
        assert lane in PathLanes(p, path);
      }
    }
  }

  lemma ChoiceMeans(p: Policy, changed: seq<ChangedFile>, q: Query)
    requires p.draftLanes == {DocsStatic, CiContract}
    ensures forall lane :: lane in TrueLanes(p, changed, q) <==> Chooses(p, changed, q, lane)
  {
    hide AllReasons, NeedsFull, AllPaths, Owns, Selected;
    FullMeans(p, changed, q);
    SelectedMeans(p, AllPaths(changed));
  }

  /**
   * Under a valid policy classification succeeds exactly on acceptable input that does not skip a nonempty inventory
   * (and, under a policy from history, chooses no lane without jobs). The manifest then has the mode, the lanes and the
   * jobs that these rules give, for the normalised commits.
   */
  lemma ClassifyMeans(p: Policy, changed: seq<ChangedFile>, q: Query, historical: bool)
    requires ValidPolicy(p, historical)
    ensures Classify(p, changed, q).Success? <==>
      && Acceptable(p, changed, q) && (q.skip.Some? ==> changed == [])
      && forall lane | Chooses(p, changed, q, lane) :: lane in p.laneJobs
    ensures Classify(p, changed, q).Success? ==>
      var m := Classify(p, changed, q).value;
      && m.mode == ModeOf(p, changed, q) && m.changed == changed && m.trustedHead == q.trustedHead
      && m.schema == "lmdj.ci-scope.v2" && m.base == Lower(q.base) && m.head == Lower(q.head)
      && (forall lane :: lane in m.lanes <==> lane in p.lanes)
      && (forall lane <- p.lanes :: m.lanes[lane] <==> Chooses(p, changed, q, lane))
      && (forall job :: job in m.requiredJobs <==>
            exists lane :: Chooses(p, changed, q, lane) && lane in p.laneJobs && job in p.laneJobs[lane])
  {
    hide TrueLanes, Chooses, NeedsFull, AllReasons, ManifestReasons, ValidManifest, ValidQuery, Acceptable, Holds, JobsHold, Lower;
    AcceptableMeans(p, changed, q);
    ChoiceMeans(p, changed, q);
    FullMeans(p, changed, q);
    if ValidQuery(p, changed, q) {
      ClassifyMeetsItsValidator(p, changed, q, historical);
    }
  }

  /** What a manifest says of itself: a full one has a reason, a draft says what it puts off, a requested one what was asked. */
  lemma ReasonsMean(p: Policy, changed: seq<ChangedFile>, q: Query)
    requires Classify(p, changed, q).Success?
    ensures var m := Classify(p, changed, q).value;
      && (m.mode == Full ==> m.reasons != {})
      && (!q.draft && q.skip.None? && q.requested == {} && m.mode == Focused ==> m.reasons == {})
      && (q.skip.Some? ==> m.reasons == {SelfTestSkip(q.skip.value)})
      && (q.requested != {} ==> RequestedLanes(q.requested) in m.reasons)
      && (q.forceFull && m.mode == Full ==> ForcedFull in m.reasons)
      && ("ci:full" in q.labels && m.mode == Full ==> FullLabel in m.reasons)
      && (q.unverifiable.Some? && m.mode == Full ==>
            UnverifiableBase in m.reasons && UnverifiableBecause(q.unverifiable.value) in m.reasons)
      && (q.draft && q.requested == {} && q.skip.None? && NeedsFull(p, changed, q) ==>
            DeferredFull(AllReasons(p, changed, q)) in m.reasons)
  {
    hide FullReasons, Selected, JobsOf, ValidManifest, AllPaths, NeedsFull;
    FullMeans(p, changed, q);
    assert AllReasons(p, changed, q) - {} == AllReasons(p, changed, q);
  }

  /** What an accepted manifest may say, whoever made it: lanes and jobs are those that its mode and its inventory ask for. */
  ghost predicate Credible(m: Manifest, p: Policy, preserving: bool) {
    && m.schema == p.manifestSchema && IsInventory(m.changed)
    && |m.base| == 40 && |m.head| == 40 && (forall c <- m.base + m.head :: c in "0123456789abcdefABCDEF")
    && (forall lane :: lane in m.lanes <==> lane in p.lanes)
    && (match m.mode
        case Full => forall lane <- p.lanes :: m.lanes[lane]
        case Draft => forall lane :: lane in m.lanes && m.lanes[lane] <==> lane in p.draftLanes
        case Requested => exists lane <- p.lanes :: m.lanes[lane]
        case Focused =>
          && (forall lane :: lane in m.lanes && m.lanes[lane] <==> exists path <- AllPaths(m.changed) :: Owns(p, path, lane))
          && (forall path <- AllPaths(m.changed) :: !Escalates(p, path, preserving))
          && !Broad(p, AllPaths(m.changed))
          && exists lane <- p.lanes :: !m.lanes[lane])
    && ((exists reason <- m.reasons :: reason.SelfTestSkip?) ==>
          m.mode == Focused && AllPaths(m.changed) == {} && forall lane <- p.lanes :: !m.lanes[lane])
    && (forall job :: job in m.requiredJobs <==>
          exists lane <- p.lanes :: m.lanes[lane] && lane in p.laneJobs && job in p.laneJobs[lane])
  }

  lemma JobsMean(m: Manifest, p: Policy)
    requires m.lanes.Keys == p.lanes
    ensures m.requiredJobs == JobsOf(p, Enabled(m)) <==> forall job :: job in m.requiredJobs <==>
      exists lane <- p.lanes :: m.lanes[lane] && lane in p.laneJobs && job in p.laneJobs[lane]
  {
    assert forall job :: job in JobsOf(p, Enabled(m)) <==>
      exists lane <- p.lanes :: m.lanes[lane] && lane in p.laneJobs && job in p.laneJobs[lane];
  }

  lemma HashesMean(base: string, head: string)
    ensures ValidSha(base) && ValidSha(head)
      <==> |base| == 40 && |head| == 40 && forall c <- base + head :: c in "0123456789abcdefABCDEF"
  {
    forall c: char ensures c in "0123456789abcdefABCDEF" <==> Hexadecimal(c) {
      HexDigit(c);
    }
    assert forall c :: c in base + head <==> c in base || c in head;
  }

  lemma ValidatorMeans(m: Manifest, p: Policy, preserving: bool)
    requires p.draftLanes <= p.lanes
    ensures ValidManifest(m, p, preserving) <==> Credible(m, p, preserving)
  {
    hide ValidInventory, IsInventory, FullReasons, Selected, Escalates, Broad, Owns, AllPaths, JobsOf, ValidSha;
    InventoryMeans(m.changed, {});
    assert forall c <- m.changed :: Unseen(c, {});
    HashesMean(m.base, m.head);
    PathsMean(p, AllPaths(m.changed), preserving);
    SelectedMeans(p, AllPaths(m.changed));
    assert forall lane :: lane in Enabled(m) <==> lane in m.lanes && m.lanes[lane];
    assert m.lanes.Keys == p.lanes <==> forall lane :: lane in m.lanes <==> lane in p.lanes;
    if m.lanes.Keys == p.lanes {
      JobsMean(m, p);
    }
  }
}
