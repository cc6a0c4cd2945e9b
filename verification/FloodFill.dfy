/** Connected components of the routing graph by breadth-first flood fill
    (LaneletMap::debugConnectedComponents). */
module FloodFill {
  import opened Base
  import opened LaneSpec

  datatype Graph = Graph(
    following: Id -> seq<Id>,
    previous: Id -> seq<Id>,
    left: Id -> Option<Id>,
    right: Id -> Option<Id>)

  function Single(o: Option<Id>): seq<Id> {
    match o case Some(id) => [id] case None => []
  }

  ghost predicate Adjacent(g: Graph, x: Id, y: Id) {
    y in g.following(x) || y in g.previous(x) || g.left(x) == Some(y) || g.right(x) == Some(y)
  }

  ghost predicate Path(g: Graph, p: seq<Id>) {
    |p| > 0 && forall i :: 0 < i < |p| ==> Adjacent(g, p[i-1], p[i])
  }

  ghost predicate Reaches(g: Graph, a: Id, b: Id) {
    exists p :: Path(g, p) && p[0] == a && p[|p|-1] == b
  }

  ghost predicate Closed(g: Graph, s: set<Id>) {
    forall x, y :: x in s && Adjacent(g, x, y) ==> y in s
  }

  ghost predicate Symmetric(g: Graph) {
    forall x, y :: Adjacent(g, x, y) ==> Adjacent(g, y, x)
  }

  ghost predicate Distinct(s: seq<Id>) {
    forall i, j :: 0 <= i < j < |s| ==> s[i] != s[j]
  }

  ghost function Elems(s: seq<Id>): set<Id> {
    set x | x in s
  }

  /** The union of the components. */
  ghost function Union(components: seq<seq<Id>>): set<Id> {
    set i, x | 0 <= i < |components| && x in components[i] :: x
  }

  /** Component i has no repetitions and holds exactly what its first lane reaches, less what earlier
      components hold. */
  ghost predicate FloodedAt(g: Graph, components: seq<seq<Id>>, i: nat)
    requires i < |components|
  {
    var c := components[i];
    && |c| > 0 && Distinct(c)
    && forall x :: x in c <==> Reaches(g, c[0], x) && x !in Union(components[..i])
  }

  ghost predicate Flooded(g: Graph, components: seq<seq<Id>>) {
    forall i :: 0 <= i < |components| ==> FloodedAt(g, components, i)
  }

  lemma ReachSelf(g: Graph, a: Id)
    ensures Reaches(g, a, a)
  {
    assert Path(g, [a]);
  }

  lemma ReachStep(g: Graph, a: Id, b: Id, c: Id)
    requires Reaches(g, a, b) && Adjacent(g, b, c)
    ensures Reaches(g, a, c)
  {
    var p :| Path(g, p) && p[0] == a && p[|p|-1] == b;
    assert Path(g, p + [c]);
    assert (p + [c])[0] == a;
  }

  /** A closed set that holds the start of a path holds its end. */
  lemma {:induction false} ClosedHoldsPath(g: Graph, s: set<Id>, p: seq<Id>)
    requires Closed(g, s) && Path(g, p) && p[0] in s
    ensures p[|p|-1] in s
  {
    if |p| > 1 {
      assert Adjacent(g, p[0], p[1]);
      assert forall i :: 0 < i < |p| - 1 ==> p[1..][i] == p[i+1] && p[1..][i-1] == p[i];
      ClosedHoldsPath(g, s, p[1..]);
    }
  }

  lemma ClosedHoldsReach(g: Graph, s: set<Id>, a: Id, b: Id)
    requires Closed(g, s) && a in s && Reaches(g, a, b)
    ensures b in s
  {
    var p :| Path(g, p) && p[0] == a && p[|p|-1] == b;
    ClosedHoldsPath(g, s, p);
  }

  /** Marks and queues the neighbours not seen before. */
  method Visit(ids: seq<Id>, visited: set<Id>, toVisit: seq<Id>)
    returns (visited': set<Id>, toVisit': seq<Id>, ghost added: seq<Id>)
    ensures visited' == visited + Elems(ids)
    ensures toVisit' == toVisit + added && Distinct(added) && Elems(added) == Elems(ids) - visited
  {
    visited', toVisit', added := visited, toVisit, [];
    for i := 0 to |ids|
      invariant visited' == visited + Elems(ids[..i])
      invariant toVisit' == toVisit + added && Distinct(added) && Elems(added) == Elems(ids[..i]) - visited
    {
      assert ids[..i + 1] == ids[..i] + [ids[i]];
      ElemsConcat(ids[..i], [ids[i]]);
      if ids[i] !in visited' {
        assert ids[i] !in Elems(added);
        ElemsConcat(added, [ids[i]]);
        visited', toVisit', added := visited' + {ids[i]}, toVisit' + [ids[i]], added + [ids[i]];
      }
    }
    assert ids[..|ids|] == ids;
  }

  lemma ElemsConcat(s: seq<Id>, t: seq<Id>)
    ensures Elems(s + t) == Elems(s) + Elems(t)
  {
  }

  ghost function Neighbours(g: Graph, x: Id): set<Id> {
    Elems(g.following(x)) + Elems(g.previous(x)) + Elems(Single(g.left(x))) + Elems(Single(g.right(x)))
  }

  /** Forward, backward and both lane-change neighbours, in the source's order. */
  method VisitNeighbours(g: Graph, current: Id, visited: set<Id>, toVisit: seq<Id>)
    returns (visited': set<Id>, toVisit': seq<Id>, ghost added: seq<Id>)
    ensures visited' == visited + Neighbours(g, current)
    ensures toVisit' == toVisit + added && Distinct(added) && Elems(added) == Neighbours(g, current) - visited
  {
    ghost var a, b, c, d;
    visited', toVisit', a := Visit(g.following(current), visited, toVisit);
    visited', toVisit', b := Visit(g.previous(current), visited', toVisit');
    DistinctConcat(a, b);
    visited', toVisit', c := Visit(Single(g.left(current)), visited', toVisit');
    DistinctConcat(a + b, c);
    visited', toVisit', d := Visit(Single(g.right(current)), visited', toVisit');
    DistinctConcat(a + b + c, d);
    added := a + b + c + d;
  }

  lemma DistinctConcat(s: seq<Id>, t: seq<Id>)
    requires Distinct(s) && Distinct(t) && Elems(s) !! Elems(t)
    ensures Distinct(s + t) && Elems(s + t) == Elems(s) + Elems(t)
  {
    forall i, j | 0 <= i < j < |s + t|
      ensures (s + t)[i] != (s + t)[j]
    {
      if i < |s| <= j {
        assert s[i] in Elems(s) && t[j - |s|] in Elems(t);
      }
    }
  }

  lemma {:induction false} ElemsSize(s: seq<Id>)
    requires Distinct(s)
    ensures |Elems(s)| == |s|
  {
    if s != [] {
      var n := |s| - 1;
      ElemsSize(s[..n]);
      assert Elems(s) == Elems(s[..n]) + {s[n]};
    }
  }

  /** The search's invariant on `all`, the finished lanes followed by the queued ones. */
  ghost predicate Frontier(g: Graph, seed: Id, visited0: set<Id>, done: nat, all: seq<Id>) {
    && done <= |all| && 0 < |all| && all[0] == seed
    && Distinct(all) && visited0 !! Elems(all)
    && (forall x :: x in all ==> Reaches(g, seed, x))
    && (forall i :: 0 <= i < done ==> Neighbours(g, all[i]) <= visited0 + Elems(all))
  }

  lemma FrontierStep(g: Graph, seed: Id, visited0: set<Id>, done: nat, all: seq<Id>, added: seq<Id>)
    requires Frontier(g, seed, visited0, done, all) && done < |all|
    requires Distinct(added) && Elems(added) == Neighbours(g, all[done]) - (visited0 + Elems(all))
    ensures Frontier(g, seed, visited0, done + 1, all + added)
    ensures Elems(all + added) == Elems(all) + Elems(added)
  {
    DistinctConcat(all, added);
    assert all[done] in all;
    forall x | x in added
      ensures Reaches(g, seed, x)
    {
      assert x in Elems(added);
      ReachStep(g, seed, all[done], x);
    }
  }

  /** When the queue is empty the component is all the seed reaches outside the earlier lanes. */
  lemma FrontierDone(g: Graph, seed: Id, visited0: set<Id>, all: seq<Id>)
    requires Frontier(g, seed, visited0, |all|, all) && Closed(g, visited0)
    ensures Closed(g, visited0 + Elems(all))
    ensures forall x :: x in all <==> Reaches(g, seed, x) && x !in visited0
  {
    var visited := visited0 + Elems(all);
    forall x, y | x in visited && Adjacent(g, x, y)
      ensures y in visited
    {
      if x !in visited0 {
        var i :| 0 <= i < |all| && all[i] == x;
        assert y in Neighbours(g, all[i]);
      }
    }
    assert seed in Elems(all);
    forall x | Reaches(g, seed, x) && x !in visited0
      ensures x in all
    {
      ClosedHoldsReach(g, visited, seed, x);
    }
    forall x | x in all
      ensures x !in visited0
    {
      assert x in Elems(all);
    }
  }

  /** Moving the head of the queue to the finished lanes only moves the border between the two. */
  lemma Requeue(done: seq<Id>, queue: seq<Id>, added: seq<Id>)
    requires queue != []
    ensures (done + [queue[0]]) + (queue[1..] + added) == (done + queue) + added
    ensures (done + queue)[|done|] == queue[0] && queue[0] in Elems(done + queue)
  {
    assert (done + queue)[|done|] == queue[0];
  }

  /** The breadth-first search from one seed. */
  method Flood(g: Graph, ghost universe: set<Id>, seed: Id, visited0: set<Id>)
    returns (component: seq<Id>, visited: set<Id>)
    requires Closed(g, universe) && seed in universe && visited0 <= universe
    requires Closed(g, visited0) && seed !in visited0
    ensures Closed(g, visited) && visited <= universe && visited == visited0 + Elems(component)
    ensures |component| > 0 && component[0] == seed && Distinct(component)
    ensures forall x :: x in component <==> Reaches(g, seed, x) && x !in visited0
  {
    component, visited := [], visited0 + {seed};
    var toVisit := [seed];
    ReachSelf(g, seed);
    while toVisit != []
      invariant Frontier(g, seed, visited0, |component|, component + toVisit)
      invariant visited == visited0 + Elems(component + toVisit) && visited <= universe
      invariant |component| <= |universe|
      decreases |universe| - |component|
    {
      var current := toVisit[0];
      ghost var done, queue := component, toVisit;
      component, toVisit := component + [current], toVisit[1..];
      ghost var added;
      visited, toVisit, added := VisitNeighbours(g, current, visited, toVisit);
      Requeue(done, queue, added);
      FrontierStep(g, seed, visited0, |done|, done + queue, added);
      NeighboursWithin(g, universe, current);
      InUniverse(universe, component, toVisit);
    }
    assert component + [] == component;
    FrontierDone(g, seed, visited0, component);
  }

  lemma NeighboursWithin(g: Graph, universe: set<Id>, x: Id)
    requires Closed(g, universe) && x in universe
    ensures Neighbours(g, x) <= universe
  {
    forall y | y in Neighbours(g, x)
      ensures y in universe
    {
      assert Adjacent(g, x, y);
    }
  }

  lemma InUniverse(universe: set<Id>, s: seq<Id>, t: seq<Id>)
    requires Distinct(s + t) && Elems(s + t) <= universe
    ensures |s| <= |universe|
  {
    ElemsSize(s + t);
    SubsetSize(Elems(s + t), universe);
  }

  /** All components in discovery order, for any graph, symmetric or not. */
  method Components(lanes: seq<Lane>, g: Graph) returns (components: seq<seq<Id>>)
    requires Closed(g, LaneIds(lanes))
    ensures Flooded(g, components)
    ensures forall l :: l in lanes && Drivable(l) ==> l.id in Union(components)
    ensures forall c :: c in components ==> |c| > 0 && exists l :: l in lanes && Drivable(l) && l.id == c[0]
  {
    components := [];
    var visited: set<Id> := {};
    for n := 0 to |lanes|
      invariant Flooded(g, components)
      invariant visited == Union(components) && visited <= LaneIds(lanes) && Closed(g, visited)
      invariant forall k :: 0 <= k < n && Drivable(lanes[k]) ==> lanes[k].id in visited
      invariant forall c :: c in components ==> |c| > 0 && exists l :: l in lanes && Drivable(l) && l.id == c[0]
    {
      if Drivable(lanes[n]) && lanes[n].id !in visited {
        var component;
        ghost var before := components;
        component, visited := Flood(g, LaneIds(lanes), lanes[n].id, visited);
        components := components + [component];
        FloodedSnoc(g, before, component);
      }
    }
  }

  lemma FloodedSnoc(g: Graph, before: seq<seq<Id>>, c: seq<Id>)
    requires Flooded(g, before)
    requires |c| > 0 && Distinct(c) && forall x :: x in c <==> Reaches(g, c[0], x) && x !in Union(before)
    ensures Flooded(g, before + [c]) && Union(before + [c]) == Union(before) + Elems(c)
  {
    var all := before + [c];
    UnionSnoc(before, c);
    assert all[..|before|] == before;
    forall i | 0 <= i < |all|
      ensures FloodedAt(g, all, i)
    {
      if i < |before| {
        assert FloodedAt(g, before, i);
        assert all[..i] == before[..i];
      }
    }
  }

  lemma UnionSnoc(components: seq<seq<Id>>, c: seq<Id>)
    ensures Union(components + [c]) == Union(components) + Elems(c)
  {
    var all := components + [c];
    forall x | x in Union(components)
      ensures x in Union(all)
    {
      var i :| 0 <= i < |components| && x in components[i];
      assert x in all[i];
    }
    forall x | x in c
      ensures x in Union(all)
    {
      assert x in all[|components|];
    }
  }

  /** A class of mutual reachability: no repetitions, and exactly the lanes its members reach. */
  ghost predicate IsClass(g: Graph, c: seq<Id>) {
    && |c| > 0 && Distinct(c)
    && forall x, y :: x in c ==> (y in c <==> Reaches(g, x, y))
  }

  ghost predicate PairwiseDisjoint(components: seq<seq<Id>>) {
    forall i, j, x :: 0 <= i < j < |components| && x in components[i] ==> x !in components[j]
  }

  lemma {:induction false} FloodedDisjoint(g: Graph, components: seq<seq<Id>>)
    requires Flooded(g, components)
    ensures PairwiseDisjoint(components)
  {
    forall i, j, x | 0 <= i < j < |components| && x in components[i]
      ensures x !in components[j]
    {
      assert FloodedAt(g, components, j);
      assert components[..j][i] == components[i];
      assert x in Union(components[..j]);
    }
  }

  lemma ReachTrans(g: Graph, a: Id, b: Id, c: Id)
    requires Reaches(g, a, b) && Reaches(g, b, c)
    ensures Reaches(g, a, c)
  {
    var p :| Path(g, p) && p[0] == a && p[|p|-1] == b;
    var q :| Path(g, q) && q[0] == b && q[|q|-1] == c;
    var r := p + q[1..];
    forall i | 0 < i < |r|
      ensures Adjacent(g, r[i-1], r[i])
    {
      if i >= |p| {
        assert r[i] == q[i - |p| + 1] && r[i-1] == q[i - |p|];
      }
    }
    assert Path(g, r) && r[0] == a && r[|r|-1] == c;
  }

  lemma {:induction false} PathReversed(g: Graph, p: seq<Id>)
    requires Symmetric(g) && Path(g, p)
    ensures Reaches(g, p[|p|-1], p[0])
  {
    var n := |p| - 1;
    if n == 0 {
      ReachSelf(g, p[0]);
    } else {
      assert Path(g, p[..n]);
      PathReversed(g, p[..n]);
      assert Adjacent(g, p[n], p[n-1]);
      ReachSelf(g, p[n]);
      ReachStep(g, p[n], p[n], p[n-1]);
      ReachTrans(g, p[n], p[n-1], p[0]);
    }
  }

  lemma ReachSymmetric(g: Graph, a: Id, b: Id)
    requires Symmetric(g) && Reaches(g, a, b)
    ensures Reaches(g, b, a)
  {
    var p :| Path(g, p) && p[0] == a && p[|p|-1] == b;
    PathReversed(g, p);
  }

  /** On a symmetric graph the flooded components are exactly the connectivity classes. */
  lemma FloodedAreClasses(g: Graph, components: seq<seq<Id>>, i: nat)
    requires Symmetric(g) && Flooded(g, components) && i < |components|
    ensures IsClass(g, components[i])
  {
    var c := components[i];
    assert FloodedAt(g, components, i);
    forall x, y | x in c
      ensures y in c <==> Reaches(g, x, y)
    {
      ReachSymmetric(g, c[0], x);
      if Reaches(g, x, y) {
        ReachTrans(g, c[0], x, y);
        if y in Union(components[..i]) {
          var k :| 0 <= k < i && y in components[k];
          assert FloodedAt(g, components, k);
          ReachSymmetric(g, x, y);
          ReachTrans(g, components[k][0], y, x);
          StaysTaken(g, components, i, k, x);
        }
      }
      if y in c {
        ReachTrans(g, x, c[0], y);
      }
    }
  }

  /** A lane reached by an earlier seed belongs to some earlier component. */
  lemma StaysTaken(g: Graph, components: seq<seq<Id>>, i: nat, k: nat, x: Id)
    requires Flooded(g, components) && k < i < |components|
    requires |components[k]| > 0 && Reaches(g, components[k][0], x)
    ensures x !in components[i]
  {
    assert FloodedAt(g, components, k) && FloodedAt(g, components, i);
    if x in components[k] {
      assert components[..i][k] == components[k];
    } else {
      var j :| 0 <= j < k && x in components[..k][j];
      assert components[..i][j] == components[j];
    }
  }

  // ---- the final sort ----

  ghost predicate LargestFirst(components: seq<seq<Id>>) {
    forall i, j :: 0 <= i < j < |components| ==> |components[i]| >= |components[j]|
  }

  /** Puts c after every component at least as large. */
  function Insert(c: seq<Id>, sorted: seq<seq<Id>>): (r: seq<seq<Id>>)
    ensures multiset(r) == multiset(sorted) + multiset{c}
  {
    if sorted == [] then [c]
    else
      assert sorted == [sorted[0]] + sorted[1..];
      if |sorted[0]| >= |c| then [sorted[0]] + Insert(c, sorted[1..]) else [c] + sorted
  }

  /** Stands for std::sort with the size comparison; any order among equal sizes would do. */
  function SortBySize(components: seq<seq<Id>>): (r: seq<seq<Id>>)
    ensures multiset(r) == multiset(components)
  {
    if components == [] then []
    else
      assert components == [components[0]] + components[1..];
      Insert(components[0], SortBySize(components[1..]))
  }

  lemma {:induction false} InsertKeepsOrder(c: seq<Id>, sorted: seq<seq<Id>>)
    requires LargestFirst(sorted)
    ensures LargestFirst(Insert(c, sorted))
  {
    if sorted != [] && |sorted[0]| >= |c| {
      InsertKeepsOrder(c, sorted[1..]);
      var rest := Insert(c, sorted[1..]);
      forall j | 0 <= j < |rest|
        ensures |rest[j]| <= |sorted[0]|
      {
        assert rest[j] in multiset(sorted[1..]) + multiset{c};
      }
    }
  }

  lemma {:induction false} SortIsSorted(components: seq<seq<Id>>)
    ensures LargestFirst(SortBySize(components))
  {
    if components != [] {
      SortIsSorted(components[1..]);
      InsertKeepsOrder(components[0], SortBySize(components[1..]));
    }
  }

  /** Sorted components of a symmetric routing graph: every drivable lane lies in one, each is a
      connectivity class, distinct ones are disjoint, larger ones come first. */
  method DebugConnectedComponents(lanes: seq<Lane>, g: Graph) returns (components: seq<seq<Id>>)
    requires Closed(g, LaneIds(lanes))
    ensures LargestFirst(components)
    ensures forall l :: l in lanes && Drivable(l) ==> exists c :: c in components && l.id in c
    ensures Symmetric(g) ==> forall c :: c in components ==> IsClass(g, c)
    ensures forall c, d, x :: c in components && d in components && x in c && x in d ==> c == d
    ensures forall c :: c in components ==> multiset(components)[c] == 1
  {
    var found := Components(lanes, g);
    components := SortBySize(found);
    SortIsSorted(found);
    SortedFacts(g, found, components);
    forall l | l in lanes && Drivable(l)
      ensures exists c :: c in components && l.id in c
    {
      var i :| 0 <= i < |found| && l.id in found[i];
      assert found[i] in components;
    }
  }

  lemma SortedFacts(g: Graph, found: seq<seq<Id>>, components: seq<seq<Id>>)
    requires Flooded(g, found) && multiset(components) == multiset(found)
    ensures forall c :: c in components <==> c in found
    ensures Symmetric(g) ==> forall c :: c in components ==> IsClass(g, c)
    ensures forall c, d, x :: c in components && d in components && x in c && x in d ==> c == d
    ensures forall c :: c in components ==> multiset(components)[c] == 1
  {
    forall c
      ensures c in components <==> c in found
    {
      assert c in components <==> c in multiset(components);
      assert c in found <==> c in multiset(found);
    }
    FloodedDisjoint(g, found);
    forall c | c in components
      ensures Symmetric(g) ==> IsClass(g, c)
      ensures multiset(found)[c] == 1
    {
      var i :| 0 <= i < |found| && found[i] == c;
      FoundOnce(g, found, i);
      if Symmetric(g) {
        FloodedAreClasses(g, found, i);
      }
    }
    forall c, d, x | c in components && d in components && x in c && x in d
      ensures c == d
    {
      var i :| 0 <= i < |found| && found[i] == c;
      var j :| 0 <= j < |found| && found[j] == d;
    }
  }

  lemma FoundOnce(g: Graph, found: seq<seq<Id>>, i: nat)
    requires Flooded(g, found) && i < |found|
    ensures multiset(found)[found[i]] == 1
  {
    FloodedDisjoint(g, found);
    var c := found[i];
    assert FloodedAt(g, found, i);
    assert c[0] in c;
    assert c !in found[..i] && c !in found[i+1..];
    assert found == found[..i] + [c] + found[i+1..];
  }
}
