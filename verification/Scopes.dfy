/** Canonical suite selections of a scope policy, and their union closed under the policy's dependencies. */
module Scopes {
  import opened Wrappers

  function Elements(xs: seq<string>): set<string> {
    set x | x in xs
  }

  /** Strings compare by their first difference, and a proper prefix comes first. */
  predicate Before(a: string, b: string) {
    b != [] && (a == [] || a[0] < b[0] || (a[0] == b[0] && Before(a[1..], b[1..])))
  }

  lemma {:induction false} BeforeIsTotal(a: string, b: string)
    ensures a == b || Before(a, b) || Before(b, a)
    ensures Before(a, b) ==> a != b && !Before(b, a)
    decreases |a|
  {
    if a != [] && b != [] {
      BeforeIsTotal(a[1..], b[1..]);
      assert a == [a[0]] + a[1..] && b == [b[0]] + b[1..];
    }
  }

  lemma {:induction false} BeforeIsTransitive(a: string, b: string, c: string)
    requires Before(a, b) && Before(b, c)
    ensures Before(a, c)
    decreases |a|
  {
    if a != [] && a[0] == b[0] && b[0] == c[0] {
      BeforeIsTransitive(a[1..], b[1..], c[1..]);
    }
  }

  /** Sorted without repetition, as every stored selection is. */
  predicate Canonical(xs: seq<string>) {
    forall i, j | 0 <= i < j < |xs| :: Before(xs[i], xs[j])
  }

  predicate Least(x: string, s: set<string>) {
    x in s && forall y <- s :: x == y || Before(x, y)
  }

  lemma {:induction false} LeastExists(s: set<string>)
    requires s != {}
    ensures exists x :: Least(x, s)
    decreases |s|
  {
    var x :| x in s;
    var rest := s - {x};
    if rest == {} {
      assert forall y <- s :: y == x || y in rest;
      assert Least(x, s);
    } else {
      LeastExists(rest);
      var least :| Least(least, rest);
      BeforeIsTotal(x, least);
      if Before(least, x) {
        assert Least(least, s);
      } else {
        forall y | y in s ensures x == y || Before(x, y) {
          if y != x && y != least {
            BeforeIsTransitive(x, least, y);
          }
        }
        assert Least(x, s);
      }
    }
  }

  lemma LeastIsUnique(s: set<string>)
    ensures forall x, y | Least(x, s) && Least(y, s) :: x == y
  {
    forall x, y | Least(x, s) && Least(y, s) ensures x == y {
      BeforeIsTotal(x, y);
    }
  }

  /** The one canonical list of a set. */
  function Enumerate(s: set<string>): (r: seq<string>)
    ensures Canonical(r)
    ensures Elements(r) == s
    decreases |s|
  {
    if s == {} then []
    else
      LeastExists(s);
      LeastIsUnique(s);
      var x :| Least(x, s);
      var rest := Enumerate(s - {x});
      CanonicalCons(x, rest, s);
      [x] + rest
  }

  lemma CanonicalCons(x: string, rest: seq<string>, s: set<string>)
    requires Least(x, s) && Canonical(rest) && Elements(rest) == s - {x}
    ensures Canonical([x] + rest) && Elements([x] + rest) == s
  {
    var all := [x] + rest;
    forall i, j | 0 <= i < j < |all| ensures Before(all[i], all[j]) {
      assert all[j] in rest && all[j] in Elements(rest);
      if i > 0 {
        assert all[i] == rest[i - 1] && all[j] == rest[j - 1];
      }
    }
    assert forall y :: y in all <==> y == x || y in rest;
    assert forall y :: y in rest <==> y in Elements(rest);
  }

  /** Two canonical lists of the same elements are the same list. */
  lemma {:induction false} CanonicalIsUnique(a: seq<string>, b: seq<string>)
    requires Canonical(a) && Canonical(b) && Elements(a) == Elements(b)
    ensures a == b
    decreases |a|
  {
    NoElements(a);
    NoElements(b);
    if a != [] {
      HeadIsLeast(a);
      HeadIsLeast(b);
      LeastIsUnique(Elements(a));
      CanonicalTail(a);
      CanonicalTail(b);
      CanonicalIsUnique(a[1..], b[1..]);
      assert a == [a[0]] + a[1..] && b == [b[0]] + b[1..];
    }
  }

  lemma NoElements(a: seq<string>)
    ensures Elements(a) == {} <==> a == []
  {
    if a != [] {
      assert a[0] in Elements(a);
    }
  }

  lemma HeadIsLeast(a: seq<string>)
    requires a != [] && Canonical(a)
    ensures Least(a[0], Elements(a))
  {
  }

  lemma CanonicalTail(a: seq<string>)
    requires a != [] && Canonical(a)
    ensures Canonical(a[1..])
    ensures Elements(a[1..]) == Elements(a) - {a[0]}
  {
    assert a == [a[0]] + a[1..];
    forall x | x in a[1..] ensures x != a[0] {
      BeforeIsTotal(a[0], x);
    }
    assert forall x <- a :: x == a[0] || x in a[1..];
  }

  // ---------------------------------------------------------------- dependencies

  type Dependencies = map<string, seq<string>>

  predicate Closed(deps: Dependencies, s: set<string>) {
    forall source <- s | source in deps :: forall target <- deps[source] :: target in s
  }

  function Expand(deps: Dependencies, s: set<string>): set<string> {
    s + set source, target | source in s && source in deps && target in deps[source] :: target
  }

  function AllTargets(deps: Dependencies): set<string> {
    set source, target | source in deps && target in deps[source] :: target
  }

  lemma ExpandShrinks(deps: Dependencies, s: set<string>)
    requires Expand(deps, s) != s
    ensures |AllTargets(deps) - Expand(deps, s)| < |AllTargets(deps) - s|
  {
    var x :| x in Expand(deps, s) && x !in s;
    Smaller(AllTargets(deps) - Expand(deps, s), AllTargets(deps) - s, x);
  }

  lemma Smaller(a: set<string>, b: set<string>, x: string)
    requires a <= b && x in b && x !in a
    ensures |a| < |b|
  {
    assert b == a + (b - a) && x in b - a;
    assert |b| == |a| + |b - a|;
  }

  function Closure(deps: Dependencies, s: set<string>): set<string>
    decreases |AllTargets(deps) - s|
  {
    var expanded := Expand(deps, s);
    if expanded == s then s
    else
      ExpandShrinks(deps, s);
      Closure(deps, expanded)
  }

  /** The closure is the smallest closed set around `s`. */
  lemma {:induction false} ClosureIsLeast(deps: Dependencies, s: set<string>)
    ensures s <= Closure(deps, s)
    ensures Closed(deps, Closure(deps, s))
    ensures forall c | s <= c && Closed(deps, c) :: Closure(deps, s) <= c
    decreases |AllTargets(deps) - s|
  {
    var expanded := Expand(deps, s);
    if expanded == s {
      forall source | source in s && source in deps ensures forall target <- deps[source] :: target in s {
        assert forall target <- deps[source] :: target in expanded;
      }
    } else {
      ExpandShrinks(deps, s);
      ClosureIsLeast(deps, expanded);
      forall c | s <= c && Closed(deps, c) ensures Closure(deps, s) <= c {
        assert expanded <= c;
      }
    }
  }

  lemma {:induction false} ClosureOfClosed(deps: Dependencies, s: set<string>)
    ensures Closure(deps, s) == s <==> Closed(deps, s)
    ensures Closure(deps, Closure(deps, s)) == Closure(deps, s)
  {
    ClosureIsLeast(deps, s);
    ClosureIsLeast(deps, Closure(deps, s));
  }

  /** The fixed-point loop. */
  method DependencyClosure(deps: Dependencies, suites: set<string>) returns (selected: set<string>)
    ensures suites <= selected && Closed(deps, selected)
    ensures forall c | suites <= c && Closed(deps, c) :: selected <= c
    ensures selected == Closure(deps, suites)
  {
    selected := suites;
    while true
      invariant Closure(deps, selected) == Closure(deps, suites)
      decreases |AllTargets(deps) - selected|
    {
      var expanded := Expand(deps, selected);
      if expanded == selected {
        ClosureIsLeast(deps, suites);
        return;
      }
      ExpandShrinks(deps, selected);
      selected := expanded;
    }
  }

  // ---------------------------------------------------------------- selections

  datatype Policy = Policy(digest: string, suites: seq<string>, dependencies: Dependencies)

  datatype Scope = Nothing | Focused | Everything

  datatype Selection = Selection(scope: Scope, suites: seq<string>, reasons: seq<string>)

  /** A parsed policy declares dependencies between its own suites only. */
  predicate WellFormed(policy: Policy) {
    AllTargets(policy.dependencies) <= Elements(policy.suites)
  }

  function Select(policy: Policy, suites: set<string>, reasons: set<string>): Result<Selection> {
    if suites <= Elements(policy.suites) then
      var scope := if suites == {} then Nothing else if suites == Elements(policy.suites) then Everything else Focused;
      Success(Selection(scope, Enumerate(suites), Enumerate(reasons)))
    else
      Failure
  }

  predicate Exact(policy: Policy, s: Selection) {
    Select(policy, Elements(s.suites), Elements(s.reasons)) == Success(s)
  }

  /** What an exact selection looks like, without reference to how it was made. */
  lemma ExactMeans(policy: Policy, s: Selection)
    ensures Exact(policy, s) <==>
      && Canonical(s.suites) && Canonical(s.reasons)
      && Elements(s.suites) <= Elements(policy.suites)
      && (s.scope == Nothing <==> s.suites == [])
      && (s.scope == Everything <==> s.suites != [] && Elements(s.suites) == Elements(policy.suites))
  {
    var n := Enumerate(Elements(s.suites));
    var m := Enumerate(Elements(s.reasons));
    if Canonical(s.suites) && Canonical(s.reasons) {
      CanonicalIsUnique(s.suites, n);
      CanonicalIsUnique(s.reasons, m);
    }
    if s.suites != [] {
      assert s.suites[0] in Elements(s.suites);
    }
  }

  lemma SelectIsExact(policy: Policy, suites: set<string>, reasons: set<string>)
    ensures var r := Select(policy, suites, reasons);
      r.Success? ==> Exact(policy, r.value) && Elements(r.value.suites) == suites && Elements(r.value.reasons) == reasons
  {
  }

  function AllSuites(selections: seq<Selection>): set<string> {
    if selections == [] then {} else Elements(selections[0].suites) + AllSuites(selections[1..])
  }

  function AllReasons(selections: seq<Selection>): set<string> {
    if selections == [] then {} else Elements(selections[0].reasons) + AllReasons(selections[1..])
  }

  function Union(policy: Policy, selections: seq<Selection>): Result<Selection> {
    if forall s <- selections :: Exact(policy, s) then
      Select(policy, Closure(policy.dependencies, AllSuites(selections)), AllReasons(selections))
    else
      Failure
  }

  lemma {:induction false} AllSuitesContains(selections: seq<Selection>, s: Selection)
    requires s in selections
    ensures Elements(s.suites) <= AllSuites(selections)
    decreases |selections|
  {
    if s != selections[0] {
      AllSuitesContains(selections[1..], s);
    }
  }

  /** A union keeps every selected suite, is exact and closed, adds nothing that closedness does not force. */
  lemma {:induction false} UnionMeans(policy: Policy, selections: seq<Selection>)
    ensures var u := Union(policy, selections);
      u.Success? ==>
        && Exact(policy, u.value)
        && Closed(policy.dependencies, Elements(u.value.suites))
        && (forall s <- selections :: Elements(s.suites) <= Elements(u.value.suites))
        && (forall c | AllSuites(selections) <= c && Closed(policy.dependencies, c) :: Elements(u.value.suites) <= c)
        && Union(policy, [u.value]) == u
  {
    var u := Union(policy, selections);
    if u.Success? {
      ClosureIsLeast(policy.dependencies, AllSuites(selections));
      forall s | s in selections ensures Elements(s.suites) <= Elements(u.value.suites) {
        AllSuitesContains(selections, s);
      }
      UnionOfOne(policy, u.value);
    }
  }

  /** On a single selection the union is the identity exactly on the exact, closed ones. */
  lemma UnionOfOne(policy: Policy, s: Selection)
    ensures Union(policy, [s]) == Success(s) <==> Exact(policy, s) && Closed(policy.dependencies, Elements(s.suites))
  {
    assert AllSuites([s]) == Elements(s.suites);
    assert AllReasons([s]) == Elements(s.reasons);
    ClosureOfClosed(policy.dependencies, Elements(s.suites));
    assert s in [s];
  }

  /** With a well-formed policy a union only refuses inputs that are not exact. */
  lemma UnionSucceeds(policy: Policy, selections: seq<Selection>)
    requires WellFormed(policy)
    ensures Union(policy, selections).Success? <==> forall s <- selections :: Exact(policy, s)
  {
    if forall s <- selections :: Exact(policy, s) {
      ExactSuites(policy, selections);
      var all := Elements(policy.suites);
      assert Closed(policy.dependencies, all) by {
        forall source, target | source in policy.dependencies && target in policy.dependencies[source] ensures target in all {
          assert target in AllTargets(policy.dependencies);
        }
      }
      ClosureIsLeast(policy.dependencies, AllSuites(selections));
    }
  }

  lemma {:induction false} ExactSuites(policy: Policy, selections: seq<Selection>)
    requires forall s <- selections :: Exact(policy, s)
    ensures AllSuites(selections) <= Elements(policy.suites)
    decreases |selections|
  {
    if selections != [] {
      assert selections[0] in selections;
      assert forall s <- selections[1..] :: s in selections;
      ExactSuites(policy, selections[1..]);
    }
  }
}
