/** Change Scope: from a complete change inventory to a closed manifest of CI lanes, and the manifest's own validator. */
module ChangeScope {
  import opened Wrappers
  import opened Inventory

  datatype Match = Exact(value: string) | Prefix(value: string) | Suffix(value: string)

  /** The canonical lanes; a policy recorded before a retirement may name more. */
  datatype Lane =
    | DocsStatic | Portal | CiContract | CoreUbuntu | CoreAsan | CoreCoverage | CoreMacos | WebToolchain
    | WebRuntimeHost | Creator | WebRuntimeLab | DeployContract | Package | Retired(name: string)

  datatype Family = CoreFamily | WebRuntimeFamily | CreatorFamily | DeployPackageFamily

  datatype Rule = Rule(pattern: Match, lanes: set<Lane>)

  datatype FullRule = FullRule(pattern: Match, reason: string)

  datatype Policy = Policy(
    manifestSchema: string,
    sloSeconds: map<string, int>,
    lanes: set<Lane>,
    laneJobs: map<Lane, seq<string>>,
    knownTopLevels: set<string>,
    fullRules: seq<FullRule>,
    rules: seq<Rule>,
    families: map<Family, set<Lane>>,
    draftLanes: set<Lane>)

  const CURRENT_JOBS: map<Lane, seq<string>> := map[
    DocsStatic := ["docs-static"], Portal := ["portal"], CiContract := ["ci-contract"], CoreUbuntu := ["core-ubuntu"],
    CoreAsan := ["core-asan"], CoreCoverage := ["core-coverage"],
    CoreMacos := ["select-macos-runner", "macos-primary", "core-macos", "core-asan-macos"],
    WebToolchain := ["web-toolchain-conformance"], WebRuntimeHost := ["web-runtime-host"],
    Creator := ["creator-web", "creator-web-serial"], WebRuntimeLab := ["web-runtime-lab"],
    DeployContract := ["deploy-contract"], Package := ["package"]]

  predicate Holds(lanes: set<Lane>) {
    CURRENT_JOBS.Keys <= lanes
  }

  /** Creator's jobs before they were regrouped; only replay accepts them. */
  const SUPERSEDED_CREATOR := ["creator-web"]

  predicate JobsHold(jobs: map<Lane, seq<string>>, historical: bool) {
    if historical then
      && (forall lane <- jobs :: jobs[lane] != [])
      && (forall lane <- CURRENT_JOBS ::
            lane in jobs && (jobs[lane] == CURRENT_JOBS[lane] || (lane == Creator && jobs[lane] == SUPERSEDED_CREATOR)))
    else
      jobs == CURRENT_JOBS
  }

  const MANDATORY_FULL := [
    Exact(".github/workflows/ci.yml"), Prefix("scripts/ci/"), Prefix(".github/actions/configure-build-acceleration/")]

  /**
   * What policy validation establishes for routing. A policy replayed from history may keep retired lanes, and then
   * need not name jobs for them.
   */
  predicate ValidPolicy(p: Policy, historical: bool) {
    && Holds(p.lanes) && (!historical ==> forall lane <- p.lanes :: !lane.Retired?)
    && p.laneJobs.Keys <= p.lanes
    && (forall rule <- p.rules :: rule.lanes != {} && rule.lanes <= p.lanes)
    && (forall family: Family :: family in p.families && p.families[family] != {} && p.families[family] <= p.lanes)
    && JobsHold(p.laneJobs, historical)
    && (forall m <- MANDATORY_FULL :: exists rule <- p.fullRules :: rule.pattern == m)
    && p.draftLanes == {DocsStatic, CiContract}
    && p.manifestSchema == MANIFEST_SCHEMA
    && (forall name <- p.sloSeconds :: p.sloSeconds[name] > 0)
  }

  predicate Matches(m: Match, path: string) {
    match m
    case Exact(value) => path == value
    case Prefix(value) => value <= path
    case Suffix(value) => |value| <= |path| && path[|path| - |value|..] == value
  }

  // ---------------------------------------------------------------- routing of ready paths

  datatype Reason =
    | UnknownTopLevel(name: string) | Unclassified(path: string) | FullRuleHit(reason: string) | ThreeFamilies(families: set<Family>)
    | ForcedFull | FullLabel | FullEvent(event: EventName) | UnverifiableBase | UnverifiableBecause(why: string)
    | SelfTestSkip(why: string) | RequestedLanes(lanes: set<Lane>) | DeferredFull(reasons: set<Reason>) | DeferredFocused

  const SCOPE_POLICY_PATH := "scripts/ci/scope_policy.json"
  const INERT_POLICY_PATH := "scripts/ci/hosted_runner_policy.json"

  predicate Exempt(path: string, preserving: bool) {
    (preserving && path == SCOPE_POLICY_PATH) || path == INERT_POLICY_PATH
  }

  function PathLanes(p: Policy, path: string): set<Lane> {
    set rule, lane | rule in p.rules && Matches(rule.pattern, path) && lane in rule.lanes :: lane
  }

  function FullHits(p: Policy, path: string): set<Reason> {
    set rule | rule in p.fullRules && Matches(rule.pattern, path) :: FullRuleHit(rule.reason)
  }

  function PathReasons(p: Policy, path: string, preserving: bool): set<Reason> {
    (if TopLevel(path) in p.knownTopLevels then {} else {UnknownTopLevel(TopLevel(path))})
    + (if PathLanes(p, path) == {} then {Unclassified(path)} else {})
    + (if Exempt(path, preserving) then {} else FullHits(p, path))
  }

  function Selected(p: Policy, paths: set<string>): set<Lane> {
    set path, lane | path in paths && lane in PathLanes(p, path) :: lane
  }

  function PerPathReasons(p: Policy, paths: set<string>, preserving: bool): set<Reason> {
    set path, reason | path in paths && reason in PathReasons(p, path, preserving) :: reason
  }

  function ActiveFamilies(p: Policy, selected: set<Lane>): set<Family> {
    set family | family in p.families && selected * p.families[family] != {}
  }

  function FullReasons(p: Policy, paths: set<string>, preserving: bool): set<Reason> {
    var active := ActiveFamilies(p, Selected(p, paths));
    PerPathReasons(p, paths, preserving) + (if |active| >= 3 then {ThreeFamilies(active)} else {})
  }

  method LanesAndHits(p: Policy, path: string, exempt: bool) returns (lanes: set<Lane>, hits: set<Reason>)
    ensures lanes == PathLanes(p, path)
    ensures hits == if exempt then {} else FullHits(p, path)
  {
    lanes, hits := {}, {};
    for i := 0 to |p.rules|
      invariant lanes == set rule, lane | rule in p.rules[..i] && Matches(rule.pattern, path) && lane in rule.lanes :: lane
    {
      assert p.rules[..i + 1] == p.rules[..i] + [p.rules[i]];
      if Matches(p.rules[i].pattern, path) {
        lanes := lanes + p.rules[i].lanes;
      }
    }
    assert p.rules[..|p.rules|] == p.rules;
    for i := 0 to |p.fullRules|
      invariant hits == if exempt then {} else set rule | rule in p.fullRules[..i] && Matches(rule.pattern, path) :: FullRuleHit(rule.reason)
    {
      assert p.fullRules[..i + 1] == p.fullRules[..i] + [p.fullRules[i]];
      if Matches(p.fullRules[i].pattern, path) && !exempt {
        hits := hits + {FullRuleHit(p.fullRules[i].reason)};
      }
    }
    assert p.fullRules[..|p.fullRules|] == p.fullRules;
  }

  /** Every path contributes its lanes and its reasons; three expensive families together are a reason of their own. */
  method EvaluateReadyPaths(p: Policy, paths: seq<string>, preserving: bool) returns (selected: set<Lane>, reasons: set<Reason>)
    ensures selected == Selected(p, PathSet(paths))
    ensures reasons == FullReasons(p, PathSet(paths), preserving)
  {
    hide PathLanes, PathReasons, FullHits, Selected, PerPathReasons, ActiveFamilies, TopLevel, Exempt;
    selected, reasons := {}, {};
    NoPaths(p, preserving);
    assert PathSet(paths[..0]) == {};
    for i := 0 to |paths|
      invariant selected == Selected(p, PathSet(paths[..i]))
      invariant reasons == PerPathReasons(p, PathSet(paths[..i]), preserving)
    {
      var path := paths[i];
      assert paths[..i + 1] == paths[..i] + [path];
      assert PathSet(paths[..i + 1]) == PathSet(paths[..i]) + {path};
      OnePathMore(p, PathSet(paths[..i]), path, preserving);
      var exempt := Exempt(path, preserving);
      var lanes, hits := LanesAndHits(p, path, exempt);
      PathReasonsIs(p, path, preserving);
      if TopLevel(path) !in p.knownTopLevels {
        reasons := reasons + {UnknownTopLevel(TopLevel(path))};
      }
      if lanes == {} {
        reasons := reasons + {Unclassified(path)};
      }
      selected := selected + lanes;
      reasons := reasons + hits;
    }
    assert paths[..|paths|] == paths;
    var active := ActiveFamilies(p, selected);
    if |active| >= 3 {
      reasons := reasons + {ThreeFamilies(active)};
    }
  }

  lemma NoPaths(p: Policy, preserving: bool)
    ensures Selected(p, {}) == {} && PerPathReasons(p, {}, preserving) == {}
  {
  }

  lemma OnePathMore(p: Policy, paths: set<string>, path: string, preserving: bool)
    ensures Selected(p, paths + {path}) == Selected(p, paths) + PathLanes(p, path)
    ensures PerPathReasons(p, paths + {path}, preserving) == PerPathReasons(p, paths, preserving) + PathReasons(p, path, preserving)
  {
    hide PathLanes, PathReasons;
  }

  lemma PathReasonsIs(p: Policy, path: string, preserving: bool)
    ensures PathReasons(p, path, preserving) ==
      (if TopLevel(path) in p.knownTopLevels then {} else {UnknownTopLevel(TopLevel(path))})
      + (if PathLanes(p, path) == {} then {Unclassified(path)} else {})
      + (if Exempt(path, preserving) then {} else FullHits(p, path))
  {
  }

  // ---------------------------------------------------------------- classification

  datatype EventName = Push | PullRequest | WorkflowDispatch | Schedule | OtherEvent

  datatype Mode = Draft | Focused | Full | Requested

  /** The arguments of one classification, apart from policy and inventory. */
  datatype Query = Query(
    base: string,
    head: string,
    trustedHead: bool,
    event: EventName,
    draft: bool,
    labels: set<string>,
    forceFull: bool,
    requested: set<Lane>,
    unverifiable: Option<string>,
    preserving: bool,
    skip: Option<string>)

  datatype Manifest = Manifest(
    schema: string,
    base: string,
    head: string,
    trustedHead: bool,
    mode: Mode,
    reasons: set<Reason>,
    changed: seq<ChangedFile>,
    lanes: map<Lane, bool>,
    requiredJobs: set<string>)

  // ---------------------------------------------------------------- commit identities

  predicate Hexadecimal(c: char) {
    '0' <= c <= '9' || 'a' <= c <= 'f' || 'A' <= c <= 'F'
  }

  predicate ValidSha(sha: string) {
    |sha| == 40 && forall c <- sha :: Hexadecimal(c)
  }

  function LowerChar(c: char): char {
    if 'A' <= c <= 'F' then c - 'A' + 'a' else c
  }

  function Lower(sha: string): string {
    seq(|sha|, i requires 0 <= i < |sha| => LowerChar(sha[i]))
  }

  /** Normalised identities are valid and stay as they are; two spellings of one commit become one. */
  lemma LowerIsNormal(a: string, b: string)
    requires ValidSha(a)
    ensures ValidSha(Lower(a)) && Lower(Lower(a)) == Lower(a) && forall c <- Lower(a) :: '0' <= c <= '9' || 'a' <= c <= 'f'
    ensures ValidSha(b) && (forall i | 0 <= i < 40 :: LowerChar(a[i]) == LowerChar(b[i])) ==> Lower(a) == Lower(b)
  {
    forall i | 0 <= i < |a| ensures Hexadecimal(Lower(a)[i]) && LowerChar(Lower(a)[i]) == Lower(a)[i] {
      assert a[i] in a;
    }
  }

  const MANIFEST_SCHEMA := "lmdj.ci-scope.v2"
  const FULL_LABEL := "ci:full"

  /** The inputs classification accepts before it builds anything. */
  predicate ValidQuery(p: Policy, changed: seq<ChangedFile>, q: Query) {
    && ValidSha(q.base) && ValidSha(q.head)
    && ValidInventory(changed, {})
    && (q.unverifiable.Some? ==> q.unverifiable.value != "" && q.event == Push && changed == [])
    && (q.requested != {} ==> q.event == WorkflowDispatch && q.requested <= p.lanes)
    && (q.skip.Some? ==>
          q.skip.value != "" && (q.event == Schedule || q.event == WorkflowDispatch) && q.requested == {} && !q.draft)
  }

  /** Reasons that force full, beyond those of the paths. */
  function QueryReasons(q: Query): set<Reason> {
    (if q.forceFull then {ForcedFull} else {})
    + (if FULL_LABEL in q.labels then {FullLabel} else {})
    + (if (q.event == WorkflowDispatch && q.requested == {}) || q.event == Schedule then {FullEvent(q.event)} else {})
    + (if q.unverifiable.Some? then {UnverifiableBase, UnverifiableBecause(q.unverifiable.value)} else {})
  }

  function AllReasons(p: Policy, changed: seq<ChangedFile>, q: Query): set<Reason> {
    FullReasons(p, AllPaths(changed), q.preserving) + QueryReasons(q)
  }

  function ReadyMode(p: Policy, changed: seq<ChangedFile>, q: Query): Mode {
    if q.skip.Some? then Focused
    else if q.requested != {} then Requested
    else if AllReasons(p, changed, q) != {} then Full
    else Focused
  }

  function TrueLanes(p: Policy, changed: seq<ChangedFile>, q: Query): set<Lane> {
    if q.draft then p.draftLanes
    else if q.skip.Some? then {}
    else if q.requested != {} then q.requested
    else if AllReasons(p, changed, q) != {} then p.lanes
    else Selected(p, AllPaths(changed))
  }

  function JobsOf(p: Policy, lanes: set<Lane>): set<string> {
    set lane, job | lane in lanes && lane in p.laneJobs && job in p.laneJobs[lane] :: job
  }

  function ManifestReasons(p: Policy, changed: seq<ChangedFile>, q: Query): set<Reason> {
    var path := FullReasons(p, AllPaths(changed), q.preserving);
    var all := if q.skip.Some? then {SelfTestSkip(q.skip.value)}
               else AllReasons(p, changed, q) - (if q.requested != {} then {ForcedFull} else {});
    if !q.draft && q.requested == {} then all
    else
      path
      + (if q.requested != {} then {RequestedLanes(q.requested)} else {})
      + (if !q.draft then {}
         else if all != {} then {DeferredFull(all)}
         else if Selected(p, AllPaths(changed)) - p.draftLanes != {} then {DeferredFocused}
         else {})
  }

  /** The manifest classification builds, before its own validator sees it. */
  function Draw(p: Policy, changed: seq<ChangedFile>, q: Query): Manifest {
    var lanes := TrueLanes(p, changed, q);
    Manifest(
      p.manifestSchema, Lower(q.base), Lower(q.head), q.trustedHead,
      if q.draft then Draft else ReadyMode(p, changed, q),
      ManifestReasons(p, changed, q),
      changed,
      map lane | lane in p.lanes :: lane in lanes,
      JobsOf(p, lanes))
  }

  function Enabled(m: Manifest): set<Lane> {
    set lane | lane in m.lanes && m.lanes[lane]
  }

  /** The closed validator every consumer of a manifest runs. */
  predicate ValidManifest(m: Manifest, p: Policy, preserving: bool) {
    var enabled := Enabled(m);
    && m.schema == p.manifestSchema && ValidSha(m.base) && ValidSha(m.head)
    && m.lanes.Keys == p.lanes
    && (m.mode == Full ==> enabled == p.lanes)
    && (m.mode == Draft ==> enabled == p.draftLanes)
    && (m.mode == Requested ==> enabled != {})
    && (m.mode == Focused ==> enabled != p.lanes)
    && ValidInventory(m.changed, {})
    && ((exists r <- m.reasons :: r.SelfTestSkip?) ==> enabled == {} && m.mode == Focused && AllPaths(m.changed) == {})
    && (m.mode == Focused ==>
          FullReasons(p, AllPaths(m.changed), preserving) == {} && enabled == Selected(p, AllPaths(m.changed)))
    && m.requiredJobs == JobsOf(p, enabled)
  }

  function Classify(p: Policy, changed: seq<ChangedFile>, q: Query): Result<Manifest> {
    var m := Draw(p, changed, q);
    if ValidQuery(p, changed, q) && TrueLanes(p, changed, q) <= p.laneJobs.Keys && ValidManifest(m, p, q.preserving) then Success(m)
    else Failure
  }

  /** Validates the inventory record by record, then decides the mode from the sets it has grown. */
  method ClassifyChange(p: Policy, changed: seq<ChangedFile>, q: Query) returns (r: Result<Manifest>)
    ensures r == Classify(p, changed, q)
  {
    hide ValidRecord, FullReasons, Selected, JobsOf, ValidManifest, PathLanes;
    if q.unverifiable.Some? && (q.unverifiable.value == "" || q.event != Push || changed != []) {
      return Failure;
    }
    if !ValidSha(q.base) || !ValidSha(q.head) {
      return Failure;
    }
    var all: set<string>, paths: seq<string> := {}, [];
    assert changed[0..] == changed;
    for i := 0 to |changed|
      invariant ValidInventory(changed, {}) <==> ValidInventory(changed[i..], all)
      invariant all == AllPaths(changed[..i]) == PathSet(paths)
    {
      assert changed[i..][1..] == changed[i + 1..];
      assert changed[..i + 1] == changed[..i] + [changed[i]];
      if !ValidRecord(changed[i], all) {
        return Failure;
      }
      all := all + PathSet(changed[i].paths);
      paths := paths + changed[i].paths;
    }
    assert changed[..|changed|] == changed;
    var selected, pathReasons := EvaluateReadyPaths(p, paths, q.preserving);
    if q.requested != {} && (q.event != WorkflowDispatch || !(q.requested <= p.lanes)) {
      return Failure;
    }
    if q.skip.Some? && (q.skip.value == "" || (q.event != Schedule && q.event != WorkflowDispatch) || q.requested != {} || q.draft) {
      return Failure;
    }
    var m := BuildManifest(p, changed, q, selected, pathReasons);
    if !(TrueLanes(p, changed, q) <= p.laneJobs.Keys) || !ValidManifest(m, p, q.preserving) {
      return Failure;
    }
    return Success(m);
  }

  /** Grows the reasons one rule at a time and lets the later modes override the earlier ones. */
  method BuildManifest(p: Policy, changed: seq<ChangedFile>, q: Query, selected: set<Lane>, pathReasons: set<Reason>) returns (m: Manifest)
    requires ValidQuery(p, changed, q)
    requires selected == Selected(p, AllPaths(changed)) && pathReasons == FullReasons(p, AllPaths(changed), q.preserving)
    ensures m == Draw(p, changed, q)
  {
    hide FullReasons, Selected, JobsOf, AllPaths, ValidInventory;
    var reasons, full := pathReasons, pathReasons;
    if q.forceFull {
      full := full + {ForcedFull};
    }
    if FULL_LABEL in q.labels {
      full := full + {FullLabel};
    }
    if q.event == WorkflowDispatch && q.requested == {} {
      full := full + {FullEvent(q.event)};
    }
    if q.event == Schedule {
      full := full + {FullEvent(q.event)};
    }
    if q.unverifiable.Some? {
      full := full + {UnverifiableBase, UnverifiableBecause(q.unverifiable.value)};
    }
    assert full == AllReasons(p, changed, q);
    if q.skip.Some? {
      full := {SelfTestSkip(q.skip.value)};
    }
    var mode, lanes;
    if q.skip.Some? {
      mode, lanes := Focused, {};
    } else if q.requested != {} {
      full := full - {ForcedFull};
      mode, lanes := Requested, q.requested;
      reasons := reasons + {RequestedLanes(q.requested)};
    } else if full != {} {
      mode, lanes := Full, p.lanes;
    } else {
      mode, lanes := Focused, selected;
    }
    if q.draft {
      if full != {} {
        reasons := reasons + {DeferredFull(full)};
      } else if selected - p.draftLanes != {} {
        reasons := reasons + {DeferredFocused};
      }
      mode, lanes := Draft, p.draftLanes;
    }
    assert AllReasons(p, changed, q) - {} == AllReasons(p, changed, q);
    if q.draft {
      assert reasons == ManifestReasons(p, changed, q);
    } else if q.requested != {} {
      assert reasons == ManifestReasons(p, changed, q);
    } else if q.skip.Some? {
      assert full == ManifestReasons(p, changed, q);
    } else {
      assert full == ManifestReasons(p, changed, q);
    }
    return Manifest(p.manifestSchema, Lower(q.base), Lower(q.head), q.trustedHead, mode, if q.draft || q.requested != {} then reasons else full, changed,
                    map lane | lane in p.lanes :: lane in lanes, JobsOf(p, lanes));
  }

  // ---------------------------------------------------------------- editing the policy itself

  predicate SameRouting(base: Policy, head: Policy, path: string) {
    && PathLanes(base, path) == PathLanes(head, path)
    && FullHits(base, path) == FullHits(head, path)
    && (TopLevel(path) in base.knownTopLevels <==> TopLevel(path) in head.knownTopLevels)
  }

  /** Whether a policy edit leaves every tracked path routed as before; without a tracked inventory it never does. */
  method EditIsPreserving(base: Policy, head: Policy, tracked: seq<string>) returns (preserving: bool)
    ensures preserving <==>
      && tracked != []
      && base.draftLanes == head.draftLanes && base.families == head.families
      && base.sloSeconds == head.sloSeconds
      && base.lanes == head.lanes && base.laneJobs == head.laneJobs
      && forall path <- tracked :: SameRouting(base, head, path)
  {
    if tracked == [] {
      return false;
    }
    if base.draftLanes != head.draftLanes || base.families != head.families || base.sloSeconds != head.sloSeconds
       || base.lanes != head.lanes || base.laneJobs != head.laneJobs {
      return false;
    }
    for i := 0 to |tracked|
      invariant forall j | 0 <= j < i :: SameRouting(base, head, tracked[j])
    {
      if !SameRouting(base, head, tracked[i]) {
        return false;
      }
    }
    return true;
  }

  /** After a preserving edit, any change to already tracked paths is routed as before the edit, reasons included. */
  lemma PreservingEditKeepsRouting(base: Policy, head: Policy, tracked: seq<string>, paths: set<string>, flag: bool)
    requires base.families == head.families
    requires forall path <- tracked :: SameRouting(base, head, path)
    requires paths <= PathSet(tracked)
    ensures Selected(base, paths) == Selected(head, paths)
    ensures FullReasons(base, paths, flag) == FullReasons(head, paths, flag)
  {
    hide PathLanes, FullHits, TopLevel, ActiveFamilies;
    forall path | path in paths ensures PathReasons(base, path, flag) == PathReasons(head, path, flag)
                                        && PathLanes(base, path) == PathLanes(head, path) {
      assert SameRouting(base, head, path);
    }
    assert Selected(base, paths) == Selected(head, paths);
    assert PerPathReasons(base, paths, flag) == PerPathReasons(head, paths, flag);
    SameFamilies(base, head, Selected(base, paths));
  }

  lemma SameFamilies(base: Policy, head: Policy, selected: set<Lane>)
    requires base.families == head.families
    ensures ActiveFamilies(base, selected) == ActiveFamilies(head, selected)
  {
  }

  // ---------------------------------------------------------------- properties

  lemma SelectedIsKnown(p: Policy, historical: bool, paths: set<string>)
    requires ValidPolicy(p, historical)
    ensures Selected(p, paths) <= p.lanes
  {
  }

  /** Selecting every lane activates all four expensive families, which forces full: focused never selects every lane. */
  lemma EveryLaneForcesFull(p: Policy, historical: bool, paths: set<string>, preserving: bool)
    requires ValidPolicy(p, historical) && Selected(p, paths) == p.lanes
    ensures FullReasons(p, paths, preserving) != {}
  {
    hide Selected, PerPathReasons, Holds;
    var active := ActiveFamilies(p, p.lanes);
    forall family: Family ensures family in active {
      assert p.lanes * p.families[family] == p.families[family];
    }
    SubsetSize({CoreFamily, WebRuntimeFamily, CreatorFamily, DeployPackageFamily}, active);
    assert ThreeFamilies(active) in FullReasons(p, paths, preserving);
  }

  lemma PathNeverSaysSkip(p: Policy, path: string, preserving: bool)
    ensures forall r <- PathReasons(p, path, preserving) :: !r.SelfTestSkip?
  {
    hide TopLevel, PathLanes, Exempt, Matches;
  }

  lemma PathsNeverSaySkip(p: Policy, paths: set<string>, preserving: bool)
    ensures forall r <- FullReasons(p, paths, preserving) :: !r.SelfTestSkip?
  {
    hide PathReasons, Selected, ActiveFamilies;
    forall path | path in paths ensures forall r <- PathReasons(p, path, preserving) :: !r.SelfTestSkip? {
      PathNeverSaysSkip(p, path, preserving);
    }
  }

  lemma {:induction false} SomePath(changed: seq<ChangedFile>)
    requires ValidInventory(changed, {})
    ensures AllPaths(changed) == {} <==> changed == []
  {
    if changed != [] {
      var c := changed[0];
      assert c in changed && c.paths[0] in c.paths;
      assert c.paths[0] in AllPaths(changed);
    }
  }

  lemma DrawnLanes(p: Policy, changed: seq<ChangedFile>, q: Query, historical: bool)
    requires ValidPolicy(p, historical) && ValidQuery(p, changed, q)
    ensures TrueLanes(p, changed, q) <= p.lanes
    ensures Enabled(Draw(p, changed, q)) == TrueLanes(p, changed, q)
  {
    hide FullReasons, Selected, JobsOf, ManifestReasons, ValidInventory, AllPaths, QueryReasons;
    SelectedIsKnown(p, historical, AllPaths(changed));
  }

  lemma OnlySkipSaysSkip(p: Policy, changed: seq<ChangedFile>, q: Query)
    requires ValidQuery(p, changed, q)
    ensures (exists r <- ManifestReasons(p, changed, q) :: r.SelfTestSkip?) <==> q.skip.Some?
  {
    hide FullReasons, Selected, ValidInventory, AllPaths;
    PathsNeverSaySkip(p, AllPaths(changed), q.preserving);
    if q.skip.Some? {
      assert SelfTestSkip(q.skip.value) in ManifestReasons(p, changed, q);
    }
  }

  /** The manifest classification builds is valid unless it skips a nonempty inventory. */
  lemma DrawIsValid(p: Policy, changed: seq<ChangedFile>, q: Query, historical: bool)
    requires ValidPolicy(p, historical) && ValidQuery(p, changed, q)
    ensures ValidManifest(Draw(p, changed, q), p, q.preserving) <==> !(q.skip.Some? && changed != [])
  {
    hide FullReasons, Selected, JobsOf, ManifestReasons, ValidInventory, AllPaths, Enabled, QueryReasons, Holds;
    DrawnLanes(p, changed, q, historical);
    LowerIsNormal(q.base, q.head);
    LowerIsNormal(q.head, q.base);
    OnlySkipSaysSkip(p, changed, q);
    InventoryOf(p, changed, q);
    SomePath(changed);
    NothingSelected(p, q.preserving);
    SomeLaneIsHeld(p, historical);
    if Selected(p, AllPaths(changed)) == p.lanes {
      EveryLaneForcesFull(p, historical, AllPaths(changed), q.preserving);
    }
    var m := Draw(p, changed, q);
    assert m.lanes.Keys == p.lanes;
    if q.draft {
      assert m.mode == Draft;
    } else if q.skip.Some? {
      assert m.mode == Focused && Enabled(m) == {};
    }
  }

  lemma SomeLaneIsHeld(p: Policy, historical: bool)
    requires ValidPolicy(p, historical)
    ensures p.lanes != {}
  {
    assert DocsStatic in CURRENT_JOBS;
    assert DocsStatic in p.lanes;
  }

  /**
   * Classification meets its own validator exactly when it is not asked to skip a self-test with a nonempty
   * inventory, and, for a policy replayed from history, when no retired lane without jobs is enabled.
   */
  lemma ClassifyMeetsItsValidator(p: Policy, changed: seq<ChangedFile>, q: Query, historical: bool)
    requires ValidPolicy(p, historical) && ValidQuery(p, changed, q)
    ensures Classify(p, changed, q).Success? <==>
      !(q.skip.Some? && changed != []) && TrueLanes(p, changed, q) <= p.laneJobs.Keys
    ensures !historical ==> (Classify(p, changed, q).Success? <==> !(q.skip.Some? && changed != []))
  {
    hide Draw, ValidManifest, TrueLanes, ValidQuery, Holds;
    DrawIsValid(p, changed, q, historical);
    DrawnLanes(p, changed, q, historical);
    if !historical {
      EveryLaneHasJobs(p);
    }
  }

  lemma EveryLaneHasJobs(p: Policy)
    requires ValidPolicy(p, false)
    ensures p.lanes <= p.laneJobs.Keys
  {
    forall lane | lane in p.lanes ensures lane in p.laneJobs {
      assert !lane.Retired?;
    }
  }

  lemma {:induction false} InventoryOf(p: Policy, changed: seq<ChangedFile>, q: Query)
    requires ValidQuery(p, changed, q)
    ensures ValidInventory(changed, {})
  {
  }

  lemma NothingSelected(p: Policy, preserving: bool)
    ensures Selected(p, {}) == {} && FullReasons(p, {}, preserving) == {}
  {
    assert ActiveFamilies(p, {}) == {};
  }

  const ZERO_SHA := seq(40, _ => '0')

  /** The inputs the source accepts and then refuses with its own validator. */
  lemma SkipWithInventoryFails(p: Policy)
    requires ValidPolicy(p, false)
    ensures var q := Query(ZERO_SHA, ZERO_SHA, true, Schedule, false, {}, false, {}, None, false, Some("already concluded"));
      var changed := [ChangedFile("M", ["notes"])];
      ValidQuery(p, changed, q) && Classify(p, changed, q).Failure?
  {
    var q := Query(ZERO_SHA, ZERO_SHA, true, Schedule, false, {}, false, {}, None, false, Some("already concluded"));
    var c := ChangedFile("M", ["notes"]);
    assert CanonicalPath("notes") by { NotesIsCanonical(); }
    assert ValidRecord(c, {});
    assert ValidInventory([c][1..], PathSet(c.paths));
    assert ValidInventory([c], {});
    ClassifyMeetsItsValidator(p, [c], q, false);
  }

  /** A policy from before a lane was retired, which names no jobs for that lane. */
  function BeforeRetirement(retired: Lane): Policy {
    Policy(MANIFEST_SCHEMA, map[], CURRENT_JOBS.Keys + {retired}, CURRENT_JOBS, {"docs"},
           [FullRule(MANDATORY_FULL[0], "CI"), FullRule(MANDATORY_FULL[1], "CI"), FullRule(MANDATORY_FULL[2], "build")], [],
           map[CoreFamily := {CoreUbuntu}, WebRuntimeFamily := {WebRuntimeHost}, CreatorFamily := {Creator}, DeployPackageFamily := {Package}],
           {DocsStatic, CiContract})
  }

  lemma FamiliesBeforeRetirement(p: Policy, retired: Lane, family: Family)
    requires p == BeforeRetirement(retired)
    ensures family in p.families && p.families[family] != {} && p.families[family] <= p.lanes
  {
    hide MANDATORY_FULL;
    match family
    case CoreFamily => assert CoreUbuntu in p.families[family];
    case WebRuntimeFamily => assert WebRuntimeHost in p.families[family];
    case CreatorFamily => assert Creator in p.families[family];
    case DeployPackageFamily => assert Package in p.families[family];
  }

  lemma MandatoryBeforeRetirement(p: Policy, retired: Lane)
    requires p == BeforeRetirement(retired)
    ensures forall m <- MANDATORY_FULL :: exists rule <- p.fullRules :: rule.pattern == m
  {
    hide CURRENT_JOBS;
    forall m | m in MANDATORY_FULL ensures exists rule <- p.fullRules :: rule.pattern == m {
      var i :| 0 <= i < 3 && MANDATORY_FULL[i] == m;
      assert p.fullRules[i].pattern == m;
    }
  }

  lemma BeforeRetirementIsValid(retired: Lane)
    ensures ValidPolicy(BeforeRetirement(retired), true)
  {
    hide MANDATORY_FULL;
    var p := BeforeRetirement(retired);
    MandatoryBeforeRetirement(p, retired);
    forall family: Family ensures family in p.families && p.families[family] != {} && p.families[family] <= p.lanes {
      FamiliesBeforeRetirement(p, retired, family);
    }
    NoEmptyJobs();
  }

  lemma NoEmptyJobs()
    ensures forall lane <- CURRENT_JOBS :: CURRENT_JOBS[lane] != []
  {
  }

  /** A scheduled run under such a policy is accepted input, and fails on the retired lane. */
  lemma RetiredLaneFails(p: Policy, retired: Lane)
    requires retired.Retired? && p == BeforeRetirement(retired)
    ensures var q := Query(ZERO_SHA, ZERO_SHA, true, Schedule, false, {}, false, {}, None, false, None);
      ValidPolicy(p, true) && ValidQuery(p, [], q) && Classify(p, [], q).Failure?
  {
    hide Holds, FullReasons, Selected, JobsOf, ValidManifest, CURRENT_JOBS;
    BeforeRetirementIsValid(retired);
    var q := Query(ZERO_SHA, ZERO_SHA, true, Schedule, false, {}, false, {}, None, false, None);
    assert FullEvent(Schedule) in AllReasons(p, [], q);
    assert retired in TrueLanes(p, [], q);
    assert retired !in p.laneJobs by { NoJobsForRetired(retired); }
  }

  lemma NoJobsForRetired(lane: Lane)
    requires lane.Retired?
    ensures lane !in CURRENT_JOBS
  {
  }

  lemma NotesIsCanonical()
    ensures CanonicalPath("notes")
  {
    assert "notes" == ['n', 'o', 't', 'e', 's'];
    NoSeparator("notes");
  }

  lemma {:induction false} NoSeparator(text: string)
    requires text != "" && '/' !in text
    ensures Split(text, '/') == [text]
    decreases |text|
  {
    if |text| == 1 {
      assert text[1..] == [] && text[0] in text && text == [text[0]];
      assert Split(text[1..], '/') == [""] && [""][1..] == [] && [text[0]] + "" == text;
      assert Split(text, '/') == [[text[0]] + ""] + [];
    } else {
      NoSeparator(text[1..]);
      assert text == [text[0]] + text[1..];
      assert text[0] in text;
    }
  }

  /** Outside draft, requested and skip modes, adding changed files never removes a lane. */
  lemma MoreFilesMoreLanes(p: Policy, a: seq<ChangedFile>, b: seq<ChangedFile>, q: Query, historical: bool)
    requires ValidPolicy(p, historical) && AllPaths(a) <= AllPaths(b)
    requires !q.draft && q.requested == {} && q.skip.None?
    requires Classify(p, a, q).Success? && Classify(p, b, q).Success?
    ensures Enabled(Classify(p, a, q).value) <= Enabled(Classify(p, b, q).value)
    ensures Classify(p, a, q).value.mode == Full ==> Classify(p, b, q).value.mode == Full
  {
    hide FullReasons, Selected, JobsOf, ManifestReasons, ValidInventory, AllPaths, ValidPolicy;
    SelectedIsKnown(p, historical, AllPaths(a));
    DrawnLanes(p, a, q, historical);
    DrawnLanes(p, b, q, historical);
    ReasonsGrow(p, AllPaths(a), AllPaths(b), q.preserving);
  }

  lemma ReasonsGrow(p: Policy, a: set<string>, b: set<string>, preserving: bool)
    requires a <= b
    ensures Selected(p, a) <= Selected(p, b)
    ensures FullReasons(p, a, preserving) != {} ==> FullReasons(p, b, preserving) != {}
  {
    var fa, fb := ActiveFamilies(p, Selected(p, a)), ActiveFamilies(p, Selected(p, b));
    FamiliesGrow(p, Selected(p, a), Selected(p, b));
    SubsetSize(fa, fb);
    assert PerPathReasons(p, a, preserving) <= PerPathReasons(p, b, preserving);
    if |fb| >= 3 {
      assert ThreeFamilies(fb) in FullReasons(p, b, preserving);
    }
  }

  lemma FamiliesGrow(p: Policy, a: set<Lane>, b: set<Lane>)
    requires a <= b
    ensures ActiveFamilies(p, a) <= ActiveFamilies(p, b)
  {
    forall family | family in ActiveFamilies(p, a) ensures family in ActiveFamilies(p, b) {
      var lane :| lane in a * p.families[family];
      assert lane in b * p.families[family];
    }
  }

  lemma SubsetSize(a: set<Family>, b: set<Family>)
    requires a <= b
    ensures |a| <= |b|
  {
    assert b == a + (b - a);
  }
}
