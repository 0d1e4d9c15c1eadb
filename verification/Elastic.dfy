/** The elastic runner controller: one decision for each observation of the host, and what runs of decisions guarantee. */
module Elastic {
  import opened Wrappers

  /** `core`: the service carries the ci-core role. */
  datatype Spec = Spec(name: string, elastic: bool, index: int, core: bool)

  datatype Config = Config(
    services: seq<Spec>,
    ceiling: int,
    busyRequired: int,
    idleRequired: int,
    cooldown: int,
    heartbeatInterval: int,
    nextJobMemory: int,
    memoryReserve: int,
    cpuRatio: real,
    ioMax: real)

  /** `coreJob` is absent when the observer cannot tell. */
  datatype Service = Service(active: bool, hasWorker: bool, coreJob: Option<bool>)

  datatype Observation = Observation(
    now: real,
    services: map<string, Service>,
    cpuCount: int,
    load1: real,
    memoryAvailable: int,
    sliceCurrent: int,
    sliceMax: int,
    ioPressure: real,
    error: bool)

  datatype State = State(
    allBusy: int,
    idle: map<string, int>,
    lastScaleOut: real,
    lastOnline: map<string, real>,
    lost: set<string>)

  const FRESH := State(0, map[], 0.0, map[], {})

  datatype Decision = Nothing | ScaleOut(service: string) | ScaleIn(service: string) | Heartbeat(service: string)

  /** What loading a configuration establishes; only indices are checked for repetition, names are not. */
  predicate ValidConfig(c: Config) {
    && c.busyRequired >= 1 && c.idleRequired >= 1
    && (forall s <- c.services :: s.elastic ==> !s.core)
    && (forall i, j | 0 <= i < j < |c.services| :: c.services[i].elastic == c.services[j].elastic ==>
                                                     c.services[i].index != c.services[j].index)
  }

  predicate DistinctNames(c: Config) {
    forall i, j | 0 <= i < j < |c.services| :: c.services[i].elastic && c.services[j].elastic ==>
                                                 c.services[i].name != c.services[j].name
  }

  function Times(specs: seq<Spec>, name: string): nat {
    if specs == [] then 0
    else Times(specs[..|specs| - 1], name) + (if specs[|specs| - 1].elastic && specs[|specs| - 1].name == name then 1 else 0)
  }

  function ElasticNames(specs: seq<Spec>): set<string> {
    set s | s in specs && s.elastic :: s.name
  }

  // ---------------------------------------------------------------- one observation

  predicate ValidObservation(c: Config, o: Observation) {
    && !o.error
    && (forall s <- c.services :: s.name in o.services)
    && o.cpuCount > 0 && o.load1 >= 0.0 && o.memoryAvailable >= 0 && o.sliceMax > 0 && o.sliceCurrent >= 0
    && 0.0 <= o.ioPressure <= 100.0
  }

  predicate Up(o: Observation, name: string) {
    name in o.services && o.services[name].active
  }

  predicate IdleNow(o: Observation, name: string) {
    Up(o, name) && !o.services[name].hasWorker
  }

  function Active(o: Observation): set<string> {
    set name | name in o.services && o.services[name].active
  }

  predicate EveryoneBusy(o: Observation) {
    Active(o) != {} && forall name <- Active(o) :: o.services[name].hasWorker
  }

  function Get(m: map<string, int>, name: string): int {
    if name in m then m[name] else 0
  }

  predicate CoreBusy(c: Config, o: Observation) {
    exists s <- c.services :: s.core && s.name in o.services && o.services[s.name].hasWorker && o.services[s.name].coreJob != Some(false)
  }

  /** Room for one more worst-case job, with no relief counted from swap. */
  predicate ResourcesAdmit(c: Config, o: Observation) {
    && o.load1 <= c.cpuRatio * o.cpuCount as real
    && o.sliceCurrent + c.nextJobMemory <= o.sliceMax
    && o.memoryAvailable >= c.nextJobMemory + c.memoryReserve
    && o.ioPressure <= c.ioMax
  }

  function IdleStreak(c: Config, o: Observation, s: State, name: string): int {
    if IdleNow(o, name) then Get(s.idle, name) + Times(c.services, name) else 0
  }

  /** The accounting that precedes every decision: each elastic entry counts, so a repeated name counts repeatedly. */
  function Counted(c: Config, o: Observation, s: State): State {
    var names := ElasticNames(c.services);
    State(
      if EveryoneBusy(o) then s.allBusy + 1 else 0,
      s.idle + map name | name in names :: IdleStreak(c, o, s, name),
      s.lastScaleOut,
      s.lastOnline + map name | name in names && Up(o, name) :: o.now,
      s.lost - set name | name in names && Up(o, name))
  }

  predicate Candidate(c: Config, o: Observation, u: State, s: Spec) {
    s.elastic && IdleNow(o, s.name) && Get(u.idle, s.name) >= c.idleRequired
  }

  predicate Stopped(o: Observation, s: Spec) {
    s.elastic && !Up(o, s.name)
  }

  predicate MayScaleOut(c: Config, o: Observation, u: State) {
    && u.allBusy >= c.busyRequired
    && |Active(o)| < c.ceiling
    && o.now - u.lastScaleOut >= c.cooldown as real
    && !CoreBusy(c, o)
    && ResourcesAdmit(c, o)
  }

  predicate Due(c: Config, o: Observation, u: State, s: Spec) {
    && Stopped(o, s) && s.name !in u.lost
    && (s.name in u.lastOnline ==> o.now - u.lastOnline[s.name] >= c.heartbeatInterval as real)
  }

  /** Exactly one decision for each tick, in this order of precedence; an invalid observation changes nothing. */
  ghost predicate Tick(c: Config, o: Observation, s: State, d: Decision, t: State) {
    if !ValidObservation(c, o) then d == Nothing && t == s
    else
      var u := Counted(c, o, s);
      var candidate := exists x <- c.services :: Candidate(c, o, u, x);
      var expandable := MayScaleOut(c, o, u) && exists x <- c.services :: Stopped(o, x);
      match d
      case ScaleIn(name) =>
        && t == u.(idle := u.idle[name := 0])
        && exists x <- c.services :: x.name == name && Candidate(c, o, u, x)
                                     && forall y <- c.services :: Candidate(c, o, u, y) ==> y.index <= x.index
      case ScaleOut(name) =>
        && !candidate && expandable
        && t == u.(lastScaleOut := o.now, allBusy := 0)
        && exists x <- c.services :: x.name == name && Stopped(o, x) && forall y <- c.services :: Stopped(o, y) ==> x.index <= y.index
      case Heartbeat(name) =>
        && !candidate && !expandable && t == u
        && exists x <- c.services :: x.name == name && Due(c, o, u, x) && forall y <- c.services :: Due(c, o, u, y) ==> x.index <= y.index
      case Nothing =>
        !candidate && !expandable && t == u && forall x <- c.services :: !Due(c, o, u, x)
  }

  // ---------------------------------------------------------------- the decision loop

  lemma OneSpecMore(specs: seq<Spec>, i: nat)
    requires i < |specs|
    ensures specs[..i + 1] == specs[..i] + [specs[i]]
    ensures forall name :: Times(specs[..i + 1], name) == Times(specs[..i], name) + (if specs[i].elastic && specs[i].name == name then 1 else 0)
    ensures ElasticNames(specs[..i + 1]) == ElasticNames(specs[..i]) + (if specs[i].elastic then {specs[i].name} else {})
  {
    assert specs[..i + 1] == specs[..i] + [specs[i]];
    assert specs[..i + 1][..i] == specs[..i];
  }

  lemma {:induction false} NamedTimes(specs: seq<Spec>, name: string)
    ensures Times(specs, name) > 0 <==> name in ElasticNames(specs)
    decreases |specs|
  {
    if specs != [] {
      var n := |specs| - 1;
      NamedTimes(specs[..n], name);
      OneSpecMore(specs, n);
      assert specs[..n + 1] == specs;
    }
  }

  /** The streaks once the services in `specs` have been counted. */
  function PartIdle(specs: seq<Spec>, o: Observation, s: State): map<string, int> {
    s.idle + map name | name in ElasticNames(specs) :: if IdleNow(o, name) then Get(s.idle, name) + Times(specs, name) else 0
  }

  function PartOnline(specs: seq<Spec>, o: Observation, s: State): map<string, real> {
    s.lastOnline + map name | name in ElasticNames(specs) && Up(o, name) :: o.now
  }

  function PartLost(specs: seq<Spec>, o: Observation, s: State): set<string> {
    s.lost - set name | name in ElasticNames(specs) && Up(o, name)
  }

  lemma NobodyCounted(o: Observation, s: State)
    ensures PartIdle([], o, s) == s.idle && PartOnline([], o, s) == s.lastOnline && PartLost([], o, s) == s.lost
  {
    assert ElasticNames([]) == {};
    assert (map name | name in ElasticNames([]) :: if IdleNow(o, name) then Get(s.idle, name) + Times([], name) else 0) == map[];
    assert (map name | name in ElasticNames([]) && Up(o, name) :: o.now) == map[];
    assert (set name | name in ElasticNames([]) && Up(o, name)) == {};
  }

  lemma IdleOneMore(specs: seq<Spec>, i: nat, o: Observation, s: State)
    requires i < |specs|
    ensures var before, spec := PartIdle(specs[..i], o, s), specs[i];
      PartIdle(specs[..i + 1], o, s)
        == if spec.elastic then before[spec.name := if IdleNow(o, spec.name) then Get(before, spec.name) + 1 else 0] else before
  {
    hide Times, ElasticNames, IdleNow;
    OneSpecMore(specs, i);
    NamedTimes(specs[..i], specs[i].name);
    var before, after, spec := PartIdle(specs[..i], o, s), PartIdle(specs[..i + 1], o, s), specs[i];
    var now := if spec.elastic then before[spec.name := if IdleNow(o, spec.name) then Get(before, spec.name) + 1 else 0] else before;
    assert after.Keys == now.Keys;
    forall name | name in after ensures after[name] == now[name] {
      if spec.elastic && name == spec.name {
        assert Get(before, name) == if name in ElasticNames(specs[..i]) && !IdleNow(o, name) then 0 else Get(s.idle, name) + Times(specs[..i], name);
      } else {
        assert Times(specs[..i + 1], name) == Times(specs[..i], name);
      }
    }
  }

  lemma OnlineOneMore(specs: seq<Spec>, i: nat, o: Observation, s: State)
    requires i < |specs|
    ensures var spec := specs[i];
      && PartOnline(specs[..i + 1], o, s) == (if spec.elastic && Up(o, spec.name) then PartOnline(specs[..i], o, s)[spec.name := o.now]
                                              else PartOnline(specs[..i], o, s))
      && PartLost(specs[..i + 1], o, s) == (if spec.elastic && Up(o, spec.name) then PartLost(specs[..i], o, s) - {spec.name}
                                            else PartLost(specs[..i], o, s))
  {
    hide Times, ElasticNames, Up;
    OneSpecMore(specs, i);
  }

  /** Marks online services, then counts streaks, entry by entry. */
  method Account(c: Config, o: Observation, s: State) returns (u: State)
    ensures u == Counted(c, o, s)
  {
    hide PartOnline, PartLost, PartIdle;
    var online, lost := s.lastOnline, s.lost;
    NobodyCounted(o, s);
    assert c.services[..0] == [];
    for i := 0 to |c.services|
      invariant online == PartOnline(c.services[..i], o, s) && lost == PartLost(c.services[..i], o, s)
    {
      OnlineOneMore(c.services, i, o, s);
      var spec := c.services[i];
      if spec.elastic && Up(o, spec.name) {
        online := online[spec.name := o.now];
        lost := lost - {spec.name};
      }
    }
    var allBusy := if EveryoneBusy(o) then s.allBusy + 1 else 0;
    var idle := s.idle;
    for i := 0 to |c.services|
      invariant idle == PartIdle(c.services[..i], o, s)
    {
      IdleOneMore(c.services, i, o, s);
      var spec := c.services[i];
      if spec.elastic {
        idle := idle[spec.name := if IdleNow(o, spec.name) then Get(idle, spec.name) + 1 else 0];
      }
    }
    assert c.services[..|c.services|] == c.services;
    AllCounted(c, o, s);
    u := State(allBusy, idle, s.lastScaleOut, online, lost);
  }

  lemma AllCounted(c: Config, o: Observation, s: State)
    ensures Counted(c, o, s) == State(if EveryoneBusy(o) then s.allBusy + 1 else 0, PartIdle(c.services, o, s), s.lastScaleOut,
                                      PartOnline(c.services, o, s), PartLost(c.services, o, s))
  {
    assert (map name | name in ElasticNames(c.services) :: IdleStreak(c, o, s, name))
        == (map name | name in ElasticNames(c.services) :: if IdleNow(o, name) then Get(s.idle, name) + Times(c.services, name) else 0);
  }

  /** The candidate with the greatest index. */
  method FindCandidate(c: Config, o: Observation, u: State) returns (r: Option<Spec>)
    ensures r.Some? ==> r.value in c.services && Candidate(c, o, u, r.value)
                        && forall y <- c.services :: Candidate(c, o, u, y) ==> y.index <= r.value.index
    ensures r.None? ==> forall y <- c.services :: !Candidate(c, o, u, y)
  {
    r := None;
    for i := 0 to |c.services|
      invariant r.Some? ==> r.value in c.services[..i] && Candidate(c, o, u, r.value)
                            && forall y <- c.services[..i] :: Candidate(c, o, u, y) ==> y.index <= r.value.index
      invariant r.None? ==> forall y <- c.services[..i] :: !Candidate(c, o, u, y)
    {
      assert c.services[..i + 1] == c.services[..i] + [c.services[i]];
      if Candidate(c, o, u, c.services[i]) && (r.None? || c.services[i].index > r.value.index) {
        r := Some(c.services[i]);
      }
    }
    assert c.services[..|c.services|] == c.services;
  }

  /** The stopped elastic service with the smallest index; with `due`, among those whose heartbeat is due. */
  method FindStopped(c: Config, o: Observation, u: State, due: bool) returns (r: Option<Spec>)
    ensures r.Some? ==> r.value in c.services && Eligible(c, o, u, due, r.value)
                        && forall y <- c.services :: Eligible(c, o, u, due, y) ==> r.value.index <= y.index
    ensures r.None? ==> forall y <- c.services :: !Eligible(c, o, u, due, y)
  {
    r := None;
    for i := 0 to |c.services|
      invariant r.Some? ==> r.value in c.services[..i] && Eligible(c, o, u, due, r.value)
                            && forall y <- c.services[..i] :: Eligible(c, o, u, due, y) ==> r.value.index <= y.index
      invariant r.None? ==> forall y <- c.services[..i] :: !Eligible(c, o, u, due, y)
    {
      assert c.services[..i + 1] == c.services[..i] + [c.services[i]];
      if Eligible(c, o, u, due, c.services[i]) && (r.None? || c.services[i].index < r.value.index) {
        r := Some(c.services[i]);
      }
    }
    assert c.services[..|c.services|] == c.services;
  }

  predicate Eligible(c: Config, o: Observation, u: State, due: bool, s: Spec) {
    if due then Due(c, o, u, s) else Stopped(o, s)
  }

  /** The pure decision core: exactly one action per tick, and none on data it cannot trust. */
  method Decide(c: Config, o: Observation, s: State) returns (d: Decision, t: State)
    ensures Tick(c, o, s, d, t)
  {
    if !ValidObservation(c, o) {
      return Nothing, s;
    }
    hide Counted, Candidate, MayScaleOut, Due, Stopped, ValidObservation;
    var u := Account(c, o, s);
    var candidate := FindCandidate(c, o, u);
    if candidate.Some? {
      return ScaleIn(candidate.value.name), u.(idle := u.idle[candidate.value.name := 0]);
    }
    var stopped := FindStopped(c, o, u, false);
    if MayScaleOut(c, o, u) && stopped.Some? {
      return ScaleOut(stopped.value.name), u.(lastScaleOut := o.now, allBusy := 0);
    }
    var due := FindStopped(c, o, u, true);
    if due.Some? {
      return Heartbeat(due.value.name), u;
    }
    return Nothing, u;
  }

  // ---------------------------------------------------------------- runs

  datatype Step = Step(observation: Observation, decision: Decision, after: State)

  function StateAfter(steps: seq<Step>): State {
    if steps == [] then FRESH else steps[|steps| - 1].after
  }

  /** Decisions from a fresh state, one for each observation. */
  ghost predicate Run(c: Config, steps: seq<Step>) {
    steps != [] ==>
      var n := |steps| - 1;
      Run(c, steps[..n]) && Tick(c, steps[n].observation, StateAfter(steps[..n]), steps[n].decision, steps[n].after)
  }

  datatype Sight = IdleSight(name: string) | BusySight

  predicate Shows(o: Observation, sight: Sight) {
    match sight
    case IdleSight(name) => IdleNow(o, name)
    case BusySight => EveryoneBusy(o)
  }

  /** The last `k` valid observations of the run all show the sight. */
  predicate EndsWith(c: Config, steps: seq<Step>, k: int, sight: Sight)
    decreases |steps|
  {
    k <= 0
    || (steps != []
        && var n := |steps| - 1;
        if !ValidObservation(c, steps[n].observation) then EndsWith(c, steps[..n], k, sight)
        else Shows(steps[n].observation, sight) && EndsWith(c, steps[..n], k - 1, sight))
  }

  lemma {:induction false} Fewer(c: Config, steps: seq<Step>, k: int, j: int, sight: Sight)
    requires EndsWith(c, steps, k, sight) && j <= k
    ensures EndsWith(c, steps, j, sight)
    decreases |steps|
  {
    if j > 0 {
      var n := |steps| - 1;
      if ValidObservation(c, steps[n].observation) {
        Fewer(c, steps[..n], k - 1, j - 1, sight);
      } else {
        Fewer(c, steps[..n], k, j, sight);
      }
    }
  }

  lemma {:induction false} EndsWithin(c: Config, steps: seq<Step>, k: int, sight: Sight)
    requires EndsWith(c, steps, k, sight)
    ensures k <= |steps|
    decreases |steps|
  {
    if k > 0 {
      var n := |steps| - 1;
      if ValidObservation(c, steps[n].observation) {
        EndsWithin(c, steps[..n], k - 1, sight);
      } else {
        EndsWithin(c, steps[..n], k, sight);
      }
    }
  }

  lemma {:induction false} DistinctCount(specs: seq<Spec>, name: string)
    requires forall i, j | 0 <= i < j < |specs| :: specs[i].elastic && specs[j].elastic ==> specs[i].name != specs[j].name
    ensures Times(specs, name) <= 1
    decreases |specs|
  {
    if specs != [] {
      var n := |specs| - 1;
      DistinctCount(specs[..n], name);
      NamedTimes(specs[..n], name);
      if specs[n].elastic && specs[n].name == name {
        forall x | x in specs[..n] && x.elastic ensures x.name != name {
          var i :| 0 <= i < n && specs[i] == x;
          assert specs[i].name != specs[n].name;
        }
      }
    }
  }

  /** What a valid tick does to the counters. */
  lemma TickCounts(c: Config, o: Observation, s: State, d: Decision, t: State, name: string)
    requires Tick(c, o, s, d, t) && ValidObservation(c, o)
    ensures t.allBusy == (if d.ScaleOut? then 0 else Counted(c, o, s).allBusy)
    ensures Get(t.idle, name) == (if d == ScaleIn(name) then 0 else Get(Counted(c, o, s).idle, name))
    ensures t.lastScaleOut == (if d.ScaleOut? then o.now else s.lastScaleOut)
  {
    hide Candidate, MayScaleOut, Due, Stopped;
  }

  lemma {:induction false} CountedIs(c: Config, o: Observation, s: State, name: string)
    ensures Get(Counted(c, o, s).idle, name) == if Times(c.services, name) == 0 then Get(s.idle, name) else IdleStreak(c, o, s, name)
    ensures Counted(c, o, s).allBusy == if EveryoneBusy(o) then s.allBusy + 1 else 0
  {
    NamedTimes(c.services, name);
  }

  lemma {:induction false} BusyStreakMeans(c: Config, steps: seq<Step>)
    requires Run(c, steps)
    ensures EndsWith(c, steps, StateAfter(steps).allBusy, BusySight)
    decreases |steps|
  {
    if steps != [] {
      hide Tick, Counted, ValidObservation, EveryoneBusy;
      var n := |steps| - 1;
      var o, s := steps[n].observation, StateAfter(steps[..n]);
      BusyStreakMeans(c, steps[..n]);
      if ValidObservation(c, o) {
        TickCounts(c, o, s, steps[n].decision, steps[n].after, "");
        CountedIs(c, o, s, "");
      } else {
        InvalidTick(c, o, s, steps[n].decision, steps[n].after);
      }
    }
  }

  lemma InvalidTick(c: Config, o: Observation, s: State, d: Decision, t: State)
    requires Tick(c, o, s, d, t) && !ValidObservation(c, o)
    ensures d == Nothing && t == s
  {
  }

  lemma {:induction false} IdleStreakMeans(c: Config, steps: seq<Step>, name: string)
    requires Run(c, steps) && Times(c.services, name) <= 1
    ensures EndsWith(c, steps, Get(StateAfter(steps).idle, name), IdleSight(name))
    decreases |steps|
  {
    if steps != [] {
      hide Tick, Counted, ValidObservation, Times;
      var n := |steps| - 1;
      var o, s := steps[n].observation, StateAfter(steps[..n]);
      IdleStreakMeans(c, steps[..n], name);
      if ValidObservation(c, o) {
        TickCounts(c, o, s, steps[n].decision, steps[n].after, name);
        CountedIs(c, o, s, name);
        if Times(c.services, name) == 0 {
          NeverCounted(c, steps, name);
        }
      } else {
        InvalidTick(c, o, s, steps[n].decision, steps[n].after);
      }
    }
  }

  lemma {:induction false} NeverCounted(c: Config, steps: seq<Step>, name: string)
    requires Run(c, steps) && Times(c.services, name) == 0
    ensures Get(StateAfter(steps).idle, name) == 0
    decreases |steps|
  {
    if steps != [] {
      hide Tick, Counted, ValidObservation, Times;
      var n := |steps| - 1;
      var o, s := steps[n].observation, StateAfter(steps[..n]);
      NeverCounted(c, steps[..n], name);
      if ValidObservation(c, o) {
        TickCounts(c, o, s, steps[n].decision, steps[n].after, name);
        CountedIs(c, o, s, name);
      } else {
        InvalidTick(c, o, s, steps[n].decision, steps[n].after);
      }
    }
  }

  /** A scale-in names a service that is idle right now and has been counted idle often enough. */
  lemma {:induction false} ScaleInNow(c: Config, o: Observation, s: State, name: string, t: State)
    requires Tick(c, o, s, ScaleIn(name), t)
    ensures ValidObservation(c, o) && IdleNow(o, name) && Times(c.services, name) > 0
    ensures Get(s.idle, name) + Times(c.services, name) >= c.idleRequired
  {
    hide Counted, Times;
    var u := Counted(c, o, s);
    var x :| x in c.services && x.name == name && Candidate(c, o, u, x);
    NamedTimes(c.services, name);
    assert name in ElasticNames(c.services);
    CountedIs(c, o, s, name);
  }

  /** With distinct elastic names, a scale-in always follows the required consecutive idle observations, and stops no worker. */
  lemma {:induction false} ScaleInIsPatient(c: Config, steps: seq<Step>, name: string)
    requires Run(c, steps) && steps != [] && steps[|steps| - 1].decision == ScaleIn(name)
    requires DistinctNames(c) || c.idleRequired <= 1
    ensures EndsWith(c, steps, c.idleRequired, IdleSight(name))
    ensures IdleNow(steps[|steps| - 1].observation, name)
  {
    hide Tick, Counted, ValidObservation, Times;
    var n := |steps| - 1;
    var o, s := steps[n].observation, StateAfter(steps[..n]);
    ScaleInNow(c, o, s, name, steps[n].after);
    if c.idleRequired > 1 {
      DistinctCount(c.services, name);
      IdleStreakMeans(c, steps[..n], name);
      Fewer(c, steps[..n], Get(s.idle, name), c.idleRequired - 1, IdleSight(name));
    }
  }

  /** A scale-out follows the required consecutive all-busy observations, below the ceiling, with room for one more job. */
  lemma {:induction false} ScaleOutIsJustified(c: Config, steps: seq<Step>, name: string)
    requires Run(c, steps) && steps != [] && steps[|steps| - 1].decision == ScaleOut(name)
    ensures var o := steps[|steps| - 1].observation;
      && EndsWith(c, steps, c.busyRequired, BusySight)
      && |Active(o)| < c.ceiling && !Up(o, name) && name in ElasticNames(c.services)
      && !CoreBusy(c, o) && ResourcesAdmit(c, o)
  {
    hide Counted, ValidObservation, EveryoneBusy, CoreBusy, ResourcesAdmit;
    var n := |steps| - 1;
    var o, s := steps[n].observation, StateAfter(steps[..n]);
    BusyStreakMeans(c, steps[..n]);
    CountedIs(c, o, s, name);
    if c.busyRequired > 0 {
      Fewer(c, steps[..n], s.allBusy, c.busyRequired - 1, BusySight);
    }
  }

  /** When the run last scaled out. */
  function LastScaleOut(steps: seq<Step>): Option<real> {
    if steps == [] then None
    else
      var n := |steps| - 1;
      if steps[n].decision.ScaleOut? then Some(steps[n].observation.now) else LastScaleOut(steps[..n])
  }

  lemma {:induction false} ClockMeans(c: Config, steps: seq<Step>)
    requires Run(c, steps)
    ensures StateAfter(steps).lastScaleOut == if LastScaleOut(steps).Some? then LastScaleOut(steps).value else 0.0
    decreases |steps|
  {
    if steps != [] {
      hide Tick, Counted, ValidObservation;
      var n := |steps| - 1;
      var o, s := steps[n].observation, StateAfter(steps[..n]);
      ClockMeans(c, steps[..n]);
      if ValidObservation(c, o) {
        TickCounts(c, o, s, steps[n].decision, steps[n].after, "");
      } else {
        InvalidTick(c, o, s, steps[n].decision, steps[n].after);
      }
    }
  }

  /** Successive scale-outs are at least the cooldown apart. */
  lemma {:induction false} ScaleOutsAreApart(c: Config, steps: seq<Step>)
    requires Run(c, steps) && steps != [] && steps[|steps| - 1].decision.ScaleOut?
    requires LastScaleOut(steps[..|steps| - 1]).Some?
    ensures steps[|steps| - 1].observation.now - LastScaleOut(steps[..|steps| - 1]).value >= c.cooldown as real
  {
    hide ValidObservation;
    ClockMeans(c, steps[..|steps| - 1]);
  }

  // ---------------------------------------------------------------- repeated names

  /** Every scale-in of every run follows the required number of consecutive valid idle observations. */
  ghost predicate Patient(c: Config) {
    forall steps: seq<Step>, name |
      && Run(c, steps) && steps != [] && steps[|steps| - 1].decision == ScaleIn(name) ::
      EndsWith(c, steps, c.idleRequired, IdleSight(name))
  }

  function ServiceNames(c: Config): set<string> {
    set x | x in c.services :: x.name
  }

  /** Only this service is up, and it has no worker. */
  function Alone(c: Config, name: string): Observation {
    Observation(0.0, map s | s in ServiceNames(c) :: Service(s == name, false, None),
                1, 0.0, 0, 0, 1, 0.0, false)
  }

  lemma {:induction false} AloneIs(c: Config, name: string)
    requires Times(c.services, name) > 0
    ensures ValidObservation(c, Alone(c, name)) && IdleNow(Alone(c, name), name) && !EveryoneBusy(Alone(c, name))
    ensures forall other | other != name :: !Up(Alone(c, name), other)
  {
    NamedTimes(c.services, name);
    assert name in Active(Alone(c, name));
  }

  lemma {:induction false} SmallestDue(specs: seq<Spec>, c: Config, o: Observation, u: State) returns (r: Option<Spec>)
    ensures r.None? ==> forall y <- specs :: !Due(c, o, u, y)
    ensures r.Some? ==> r.value in specs && Due(c, o, u, r.value)
    ensures r.Some? ==> forall y <- specs :: Due(c, o, u, y) ==> r.value.index <= y.index
    decreases |specs|
  {
    hide Due;
    r := None;
    if specs != [] {
      var n := |specs| - 1;
      var last := specs[n];
      r := SmallestDue(specs[..n], c, o, u);
      assert specs == specs[..n] + [last];
      if Due(c, o, u, last) && (r.None? || last.index < r.value.index) {
        r := Some(last);
      }
    }
  }

  /** While the repeated service has not been counted enough, the tick only counts it. */
  lemma {:induction false} AloneCounts(c: Config, name: string, s: State)
    requires ValidConfig(c) && Times(c.services, name) > 0
    requires Get(s.idle, name) + Times(c.services, name) < c.idleRequired
    ensures exists d :: Tick(c, Alone(c, name), s, d, Counted(c, Alone(c, name), s))
  {
    hide Counted, ValidObservation, EveryoneBusy, Times, Due, Alone;
    var o := Alone(c, name);
    var u := Counted(c, o, s);
    AloneIs(c, name);
    CountedIs(c, o, s, name);
    var due := SmallestDue(c.services, c, o, u);
    assert Tick(c, o, s, if due.Some? then Heartbeat(due.value.name) else Nothing, u);
  }

  /** `k` lone observations count a service named `m` times to `m * k`. */
  lemma {:induction false} AloneRun(c: Config, name: string, k: nat)
    requires ValidConfig(c) && Times(c.services, name) > 0
    requires Times(c.services, name) * k < c.idleRequired
    ensures exists steps :: Run(c, steps) && |steps| == k && Get(StateAfter(steps).idle, name) == Times(c.services, name) * k
    decreases k
  {
    hide Tick, Counted, Times, Alone;
    var m := Times(c.services, name);
    if k == 0 {
      assert Run(c, []) && Get(StateAfter([]).idle, name) == 0;
      assert m * k == 0;
    } else {
      assert m * (k - 1) + m == m * k;
      AloneRun(c, name, k - 1);
      var before :| Run(c, before) && |before| == k - 1 && Get(StateAfter(before).idle, name) == m * (k - 1);
      var s := StateAfter(before);
      AloneCounts(c, name, s);
      var d :| Tick(c, Alone(c, name), s, d, Counted(c, Alone(c, name), s));
      var steps := before + [Step(Alone(c, name), d, Counted(c, Alone(c, name), s))];
      assert steps[..k - 1] == before;
      AloneIs(c, name);
      CountedIs(c, Alone(c, name), s, name);
      assert Run(c, steps);
    }
  }

  /** The tick that takes the repeated service over the threshold scales it in. */
  lemma {:induction false} AloneScalesIn(c: Config, name: string, s: State)
    requires Times(c.services, name) > 0 && Get(s.idle, name) + Times(c.services, name) >= c.idleRequired
    ensures var u := Counted(c, Alone(c, name), s); Tick(c, Alone(c, name), s, ScaleIn(name), u.(idle := u.idle[name := 0]))
  {
    hide Counted, ValidObservation, EveryoneBusy, Times, Due, Alone;
    var o := Alone(c, name);
    var u := Counted(c, o, s);
    AloneIs(c, name);
    CountedIs(c, o, s, name);
    BestNamed(c.services, c, o, u, name);
  }

  lemma {:induction false} BestNamed(specs: seq<Spec>, c: Config, o: Observation, u: State, name: string)
    requires Times(specs, name) > 0 && IdleNow(o, name) && Get(u.idle, name) >= c.idleRequired
    requires forall other | other != name :: !Up(o, other)
    ensures exists x <- specs :: x.name == name && Candidate(c, o, u, x) && forall y <- specs :: Candidate(c, o, u, y) ==> y.index <= x.index
    decreases |specs|
  {
    var n := |specs| - 1;
    var last, front := specs[n], specs[..n];
    assert specs == front + [last];
    if Times(front, name) > 0 {
      BestNamed(front, c, o, u, name);
      var x :| x in front && x.name == name && Candidate(c, o, u, x) && forall y <- front :: Candidate(c, o, u, y) ==> y.index <= x.index;
      if Candidate(c, o, u, last) && last.index > x.index {
        assert last in specs && forall y <- specs :: Candidate(c, o, u, y) ==> y.index <= last.index;
      } else {
        assert x in specs && forall y <- specs :: Candidate(c, o, u, y) ==> y.index <= x.index;
      }
    } else {
      NamedTimes(front, name);
      assert last in specs && Candidate(c, o, u, last);
      forall y | y in specs && Candidate(c, o, u, y) ensures y == last {
        assert y in front ==> y.name in ElasticNames(front);
      }
    }
  }

  /** A name configured twice is scaled in after fewer observations than required. */
  lemma {:induction false} RepeatedNameIsHasty(c: Config, name: string)
    requires ValidConfig(c) && Times(c.services, name) >= 2 && c.idleRequired >= 2
    ensures exists steps: seq<Step> :: Run(c, steps) && steps != [] && |steps| < c.idleRequired && steps[|steps| - 1].decision == ScaleIn(name)
  {
    hide Tick, Counted, Times, Alone;
    var m := Times(c.services, name);
    var k := (c.idleRequired - 1) / m;
    Quotient(c.idleRequired, m, k);
    AloneRun(c, name, k);
    var before :| Run(c, before) && |before| == k && Get(StateAfter(before).idle, name) == m * k;
    var s := StateAfter(before);
    AloneScalesIn(c, name, s);
    var u := Counted(c, Alone(c, name), s);
    var steps := before + [Step(Alone(c, name), ScaleIn(name), u.(idle := u.idle[name := 0]))];
    assert steps[..k] == before;
    assert Run(c, steps) && |steps| < c.idleRequired && steps[|steps| - 1].decision == ScaleIn(name);
  }

  lemma Quotient(r: int, m: int, k: int)
    requires r >= 2 && m >= 2 && k == (r - 1) / m
    ensures k >= 0 && m * k < r <= m * k + m && k + 1 < r
  {
    assert 2 * k <= m * k;
  }

  lemma RepeatedName(c: Config)
    requires !DistinctNames(c)
    ensures exists name :: Times(c.services, name) >= 2
  {
    var i, j :| 0 <= i < j < |c.services| && c.services[i].elastic && c.services[j].elastic && c.services[i].name == c.services[j].name;
    TwiceCounted(c.services, i, j, c.services[i].name);
  }

  lemma {:induction false} TwiceCounted(specs: seq<Spec>, i: nat, j: nat, name: string)
    requires i < j < |specs| && specs[i].elastic && specs[j].elastic && specs[i].name == specs[j].name == name
    ensures Times(specs, name) >= 2
  {
    OneSpecMore(specs, i);
    OneSpecMore(specs, j);
    assert Times(specs[..i + 1], name) >= 1;
    TimesGrow(specs, i + 1, j, name);
    assert Times(specs[..j + 1], name) >= 2;
    TimesGrow(specs, j + 1, |specs|, name);
    assert specs[..|specs|] == specs;
  }

  lemma {:induction false} TimesGrow(specs: seq<Spec>, i: nat, j: nat, name: string)
    requires i <= j <= |specs|
    ensures Times(specs[..i], name) <= Times(specs[..j], name)
    decreases j
  {
    if i < j {
      OneSpecMore(specs, j - 1);
      TimesGrow(specs, i, j - 1, name);
    }
  }

  /** Scale-in is patient exactly when no elastic service name is configured twice, or one observation is enough anyway. */
  lemma PatientExactlyWhen(c: Config)
    requires ValidConfig(c)
    ensures Patient(c) <==> DistinctNames(c) || c.idleRequired <= 1
  {
    hide Run, ValidConfig;
    if DistinctNames(c) || c.idleRequired <= 1 {
      forall steps: seq<Step>, name | Run(c, steps) && steps != [] && steps[|steps| - 1].decision == ScaleIn(name)
        ensures EndsWith(c, steps, c.idleRequired, IdleSight(name))
      {
        ScaleInIsPatient(c, steps, name);
      }
    } else {
      RepeatedName(c);
      var name :| Times(c.services, name) >= 2;
      RepeatedNameIsHasty(c, name);
      var steps: seq<Step> :| Run(c, steps) && steps != [] && |steps| < c.idleRequired && steps[|steps| - 1].decision == ScaleIn(name);
      if EndsWith(c, steps, c.idleRequired, IdleSight(name)) {
        EndsWithin(c, steps, c.idleRequired, IdleSight(name));
      }
    }
  }

  // ---------------------------------------------------------------- each decision, exactly

  /** The observation is complete, and every figure in it is possible. */
  predicate Sane(c: Config, o: Observation) {
    && !o.error && (forall s <- c.services :: s.name in o.services)
    && o.cpuCount >= 1 && o.memoryAvailable >= 0 && o.sliceMax >= 1 && o.sliceCurrent >= 0
    && o.load1 >= 0.0 && o.ioPressure >= 0.0 && o.ioPressure <= 100.0
  }

  predicate Runs(o: Observation, name: string) {
    name in o.services && o.services[name].active
  }

  predicate Works(o: Observation, name: string) {
    name in o.services && o.services[name].hasWorker
  }

  /** Some service is active, and every active service has a worker. */
  predicate AllWork(o: Observation) {
    (exists name <- o.services :: Runs(o, name)) && forall name <- o.services :: Runs(o, name) ==> Works(o, name)
  }

  /** With one more job of the worst kind the load, both memories and the pressure stay within their limits; swap is no relief. */
  predicate OneMoreFits(c: Config, o: Observation) {
    && !(o.load1 > c.cpuRatio * o.cpuCount as real)
    && !(o.sliceCurrent + c.nextJobMemory > o.sliceMax)
    && !(o.memoryAvailable < c.nextJobMemory + c.memoryReserve)
    && !(o.ioPressure > c.ioMax)
  }

  /** No service with the core role is at a job that is, or may be, a core job. */
  predicate CoreIsFree(c: Config, o: Observation) {
    forall s <- c.services | s.core && Works(o, s.name) :: s.name in o.services && o.services[s.name].coreJob == Some(false)
  }

  /** Idle now, and with this tick for as many observations as are required; a repeated name counts repeatedly. */
  predicate IdleEnough(c: Config, o: Observation, s: State, spec: Spec) {
    && spec.elastic && Runs(o, spec.name) && !Works(o, spec.name)
    && (if spec.name in s.idle then s.idle[spec.name] else 0) + Times(c.services, spec.name) >= c.idleRequired
  }

  lemma ObservationMeans(c: Config, o: Observation)
    ensures ValidObservation(c, o) <==> Sane(c, o)
    ensures EveryoneBusy(o) <==> AllWork(o)
    ensures ResourcesAdmit(c, o) <==> OneMoreFits(c, o)
    ensures CoreBusy(c, o) <==> !CoreIsFree(c, o)
    ensures forall name :: Up(o, name) <==> Runs(o, name)
    ensures forall name :: IdleNow(o, name) <==> Runs(o, name) && !Works(o, name)
    ensures Active(o) == set name | name in o.services && o.services[name].active
  {
    if EveryoneBusy(o) {
      var name :| name in Active(o);
      assert Runs(o, name);
    }
    if AllWork(o) {
      var name :| name in o.services && Runs(o, name);
      assert name in Active(o);
      forall other | other in Active(o) ensures o.services[other].hasWorker {
        assert Runs(o, other);
      }
    }
    if !CoreIsFree(c, o) {
      var s :| s in c.services && s.core && Works(o, s.name) && !(s.name in o.services && o.services[s.name].coreJob == Some(false));
      assert CoreBusy(c, o);
    }
  }

  lemma CandidateMeans(c: Config, o: Observation, s: State, spec: Spec)
    requires spec in c.services
    ensures Candidate(c, o, Counted(c, o, s), spec) <==> IdleEnough(c, o, s, spec)
  {
    hide Counted, Times;
    ObservationMeans(c, o);
    CountedIs(c, o, s, spec.name);
    NamedTimes(c.services, spec.name);
  }

  /** A scale-in is decided exactly when a service has been idle enough, and takes one of greatest index; nothing else comes before it. */
  lemma ScaleInExactly(c: Config, o: Observation, s: State, d: Decision, t: State)
    requires Tick(c, o, s, d, t)
    ensures d.ScaleIn? <==> Sane(c, o) && exists x <- c.services :: IdleEnough(c, o, s, x)
    ensures d.ScaleIn? ==>
      exists x <- c.services :: x.name == d.service && IdleEnough(c, o, s, x)
                                && forall y <- c.services :: IdleEnough(c, o, s, y) ==> y.index <= x.index
  {
    hide Counted, Candidate, MayScaleOut, Due, Stopped, ValidObservation, IdleEnough;
    ObservationMeans(c, o);
    forall x | x in c.services ensures Candidate(c, o, Counted(c, o, s), x) <==> IdleEnough(c, o, s, x) {
      CandidateMeans(c, o, s, x);
    }
  }

  /**
   * A scale-out is decided exactly when all active services have worked for the required observations, this one
   * included, a service is stopped, and ceiling, cooldown, core jobs and resources all admit one more; it starts one of
   * least index.
   */
  lemma ScaleOutExactly(c: Config, o: Observation, s: State, d: Decision, t: State)
    requires ValidConfig(c) && Tick(c, o, s, d, t)
    ensures d.ScaleOut? <==>
      && Sane(c, o) && AllWork(o) && s.allBusy + 1 >= c.busyRequired
      && (exists x <- c.services :: x.elastic && !Runs(o, x.name))
      && |set name | name in o.services && o.services[name].active| < c.ceiling
      && o.now - s.lastScaleOut >= c.cooldown as real
      && CoreIsFree(c, o) && OneMoreFits(c, o)
    ensures d.ScaleOut? ==>
      exists x <- c.services :: x.name == d.service && x.elastic && !Runs(o, x.name)
                                && forall y <- c.services :: y.elastic && !Runs(o, y.name) ==> x.index <= y.index
  {
    ScaleInExactly(c, o, s, d, t);
    hide Counted, Candidate, Due, ValidObservation, IdleEnough, CoreBusy, CoreIsFree, ResourcesAdmit, OneMoreFits, EveryoneBusy, Active;
    ObservationMeans(c, o);
    CountedIs(c, o, s, "");
    CountedClock(c, o, s);
    if AllWork(o) {
      NobodyIdles(c, o, s);
      forall x | x in c.services ensures !Candidate(c, o, Counted(c, o, s), x) {
        CandidateMeans(c, o, s, x);
      }
    }
  }

  lemma CountedClock(c: Config, o: Observation, s: State)
    ensures Counted(c, o, s).lastScaleOut == s.lastScaleOut
  {
  }

  lemma NobodyIdles(c: Config, o: Observation, s: State)
    requires AllWork(o)
    ensures forall x <- c.services :: !IdleEnough(c, o, s, x)
  {
  }

  /** A stopped elastic service is due again when it was last seen online long enough ago, or never; lost ones are left alone. */
  predicate NeedsSign(c: Config, o: Observation, s: State, spec: Spec) {
    && spec.elastic && !Runs(o, spec.name) && spec.name !in s.lost
    && (spec.name !in s.lastOnline || o.now - s.lastOnline[spec.name] >= c.heartbeatInterval as real)
  }

  /** Otherwise a heartbeat is decided exactly when some service needs one, and goes to one of least index. */
  lemma HeartbeatExactly(c: Config, o: Observation, s: State, d: Decision, t: State)
    requires Tick(c, o, s, d, t)
    ensures d.Heartbeat? <==> Sane(c, o) && !d.ScaleIn? && !d.ScaleOut? && exists x <- c.services :: NeedsSign(c, o, s, x)
    ensures d.Heartbeat? ==>
      exists x <- c.services :: x.name == d.service && NeedsSign(c, o, s, x)
                                && forall y <- c.services :: NeedsSign(c, o, s, y) ==> x.index <= y.index
  {
    hide Counted, Candidate, MayScaleOut, Due, Stopped, ValidObservation, NeedsSign;
    ObservationMeans(c, o);
    forall x | x in c.services ensures Due(c, o, Counted(c, o, s), x) <==> NeedsSign(c, o, s, x) {
      DueMeans(c, o, s, x);
    }
  }

  lemma DueMeans(c: Config, o: Observation, s: State, spec: Spec)
    requires spec in c.services
    ensures Due(c, o, Counted(c, o, s), spec) <==> NeedsSign(c, o, s, spec)
  {
    hide Times;
    ObservationMeans(c, o);
    if spec.elastic {
      assert spec.name in ElasticNames(c.services);
    }
  }

  /** The services that ran at the last `k` valid observations all worked, and no scale-out was decided at any of them. */
  predicate WorkedFor(c: Config, steps: seq<Step>, k: int)
    decreases |steps|
  {
    k <= 0
    || (steps != []
        && var n := |steps| - 1;
        if !Sane(c, steps[n].observation) then WorkedFor(c, steps[..n], k)
        else AllWork(steps[n].observation) && !steps[n].decision.ScaleOut? && WorkedFor(c, steps[..n], k - 1))
  }

  lemma {:induction false} WorkIsCounted(c: Config, steps: seq<Step>, k: int)
    requires Run(c, steps) && WorkedFor(c, steps, k)
    ensures StateAfter(steps).allBusy >= k && StateAfter(steps).allBusy >= 0
    decreases |steps|
  {
    hide Tick, Counted, ValidObservation, EveryoneBusy, Sane, AllWork;
    if steps != [] {
      var n := |steps| - 1;
      var o, s := steps[n].observation, StateAfter(steps[..n]);
      ObservationMeans(c, o);
      if !ValidObservation(c, o) {
        WorkIsCounted(c, steps[..n], k);
        InvalidTick(c, o, s, steps[n].decision, steps[n].after);
      } else {
        TickCounts(c, o, s, steps[n].decision, steps[n].after, "");
        CountedIs(c, o, s, "");
        WorkIsCounted(c, steps[..n], if k <= 0 then 0 else k - 1);
      }
    }
  }

  /**
   * Capacity does grow: once everything has worked for the required observations since the last scale-out, the tick
   * at which a service is stopped and nothing forbids one more starts one.
   */
  lemma {:induction false} ScaleOutHappens(c: Config, steps: seq<Step>)
    requires ValidConfig(c) && steps != [] && Run(c, steps)
    requires var n, o := |steps| - 1, steps[|steps| - 1].observation;
      && Sane(c, o) && AllWork(o) && WorkedFor(c, steps[..n], c.busyRequired - 1)
      && (exists x <- c.services :: x.elastic && !Runs(o, x.name))
      && |set name | name in o.services && o.services[name].active| < c.ceiling
      && (LastScaleOut(steps[..n]).Some? ==> o.now - LastScaleOut(steps[..n]).value >= c.cooldown as real)
      && (LastScaleOut(steps[..n]).None? ==> o.now >= c.cooldown as real)
      && CoreIsFree(c, o) && OneMoreFits(c, o)
    ensures steps[|steps| - 1].decision.ScaleOut?
  {
    hide Tick, Sane, AllWork, CoreIsFree, OneMoreFits, WorkedFor;
    var n := |steps| - 1;
    var step, s := steps[n], StateAfter(steps[..n]);
    WorkIsCounted(c, steps[..n], c.busyRequired - 1);
    ClockMeans(c, steps[..n]);
    ScaleOutExactly(c, step.observation, s, step.decision, step.after);
  }

  /** The service was idle at the last `k` valid observations, and was not scaled in at any of them. */
  predicate IdledFor(c: Config, steps: seq<Step>, k: int, name: string)
    decreases |steps|
  {
    k <= 0
    || (steps != []
        && var n := |steps| - 1;
        var o := steps[n].observation;
        if !Sane(c, o) then IdledFor(c, steps[..n], k, name)
        else Runs(o, name) && !Works(o, name) && steps[n].decision != ScaleIn(name) && IdledFor(c, steps[..n], k - 1, name))
  }

  lemma {:induction false} IdlenessIsCounted(c: Config, steps: seq<Step>, k: int, name: string)
    requires Run(c, steps) && Times(c.services, name) >= 1 && IdledFor(c, steps, k, name)
    ensures Get(StateAfter(steps).idle, name) >= k && Get(StateAfter(steps).idle, name) >= 0
    decreases |steps|
  {
    hide Tick, Counted, ValidObservation, Sane, Times, Runs, Works;
    if steps != [] {
      var n := |steps| - 1;
      var o, s := steps[n].observation, StateAfter(steps[..n]);
      ObservationMeans(c, o);
      if !ValidObservation(c, o) {
        IdlenessIsCounted(c, steps[..n], k, name);
        InvalidTick(c, o, s, steps[n].decision, steps[n].after);
      } else {
        TickCounts(c, o, s, steps[n].decision, steps[n].after, name);
        CountedIs(c, o, s, name);
        IdlenessIsCounted(c, steps[..n], if k <= 0 then 0 else k - 1, name);
      }
    }
  }

  /** Capacity does shrink: a service that has been idle for the required observations makes its tick a scale-in. */
  lemma {:induction false} ScaleInHappens(c: Config, steps: seq<Step>, spec: Spec)
    requires ValidConfig(c) && steps != [] && Run(c, steps) && spec in c.services && spec.elastic
    requires var n, o := |steps| - 1, steps[|steps| - 1].observation;
      Sane(c, o) && Runs(o, spec.name) && !Works(o, spec.name) && IdledFor(c, steps[..n], c.idleRequired - 1, spec.name)
    ensures steps[|steps| - 1].decision.ScaleIn?
  {
    hide Tick, Sane, IdledFor, Runs, Works, Times;
    var n := |steps| - 1;
    var step, s := steps[n], StateAfter(steps[..n]);
    NamedTimes(c.services, spec.name);
    assert spec.name in ElasticNames(c.services);
    IdlenessIsCounted(c, steps[..n], c.idleRequired - 1, spec.name);
    ScaleInExactly(c, step.observation, s, step.decision, step.after);
    assert IdleEnough(c, step.observation, s, spec);
  }

  /** What a trusted observation leaves on record of an elastic service: when it was last seen running; then it is not lost. */
  lemma SightingsMean(c: Config, o: Observation, s: State, d: Decision, t: State, spec: Spec)
    requires Tick(c, o, s, d, t) && spec in c.services && spec.elastic
    ensures if Sane(c, o) && Runs(o, spec.name) then
        spec.name in t.lastOnline && t.lastOnline[spec.name] == o.now && spec.name !in t.lost
      else
        && (spec.name in t.lastOnline <==> spec.name in s.lastOnline)
        && (spec.name in s.lastOnline ==> t.lastOnline[spec.name] == s.lastOnline[spec.name])
        && (spec.name in t.lost <==> spec.name in s.lost)
  {
    hide Candidate, MayScaleOut, Due, Stopped, ValidObservation, Sane, Times;
    ObservationMeans(c, o);
    assert spec.name in ElasticNames(c.services);
  }
}
