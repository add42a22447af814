/**
 The order services are started in (agent/internal/docker/stack.go).

 Applying a revision, starting a deployed stack, stopping it and removing it all
 ask the same question, and all get the answer computed here.
 */
module StartOrder {
  import opened Text

  datatype OrderResult = Ordered(order: seq<string>) | Cyclic(remaining: set<string>)

  /** What each service waits for. */
  type Dependencies = map<string, seq<string>>

  /** The services nothing still pending has to precede. */
  function Ready(pending: Dependencies): set<string>
  {
    set name | name in pending && !Waits(pending, name)
  }

  predicate Waits(pending: Dependencies, name: string)
    requires name in pending
  {
    exists d :: d in pending[name] && d in pending
  }

  /**
   A non-empty set of services each of which depends on a member of the set:
   nothing in it can ever be started first.
   */
  ghost predicate Knot(deps: Dependencies, knot: set<string>)
  {
    knot != {} && knot <= deps.Keys &&
    forall s {:trigger NeedsOneOf(deps, s, knot)} :: s in knot ==> NeedsOneOf(deps, s, knot)
  }

  ghost predicate NeedsOneOf(deps: Dependencies, s: string, knot: set<string>)
    requires s in deps
  {
    exists d :: d in deps[s] && d in knot
  }

  /**
   The order level by level, each level alphabetical. Nothing in this definition
   mentions how the level was collected.
   */
  ghost predicate LevelOrder(pending: Dependencies, order: seq<string>)
    decreases |order|
  {
    if |pending| == 0 then order == [] else
      var level := Ready(pending);
      var k := |level|;
      && 0 < k <= |order|
      && Members(order[..k]) == level
      && Ascending(order[..k])
      && LevelOrder(pending - level, order[k..])
  }

  /** Every dependency that is itself one of the services comes first. */
  ghost predicate DependenciesFirst(deps: Dependencies, order: seq<string>)
  {
    forall i, d :: 0 <= i < |order| && order[i] in deps && d in deps[order[i]] && d in deps.Keys ==>
      d in order[..i]
  }

  /** A usable start order: each service once, after what it waits for. */
  ghost predicate StartsInOrder(deps: Dependencies, order: seq<string>)
  {
    Distinct(order) && Members(order) == deps.Keys && DependenciesFirst(deps, order)
  }

  lemma {:induction false} LevelOrderUnique(pending: Dependencies, a: seq<string>, b: seq<string>)
    requires LevelOrder(pending, a) && LevelOrder(pending, b)
    ensures a == b
    decreases |a|
  {
    if |pending| != 0 {
      var level := Ready(pending);
      var k := |level|;
      AscendingUnique(a[..k], b[..k]);
      LevelOrderUnique(pending - level, a[k..], b[k..]);
      assert a == a[..k] + a[k..] && b == b[..k] + b[k..];
    }
  }

  lemma {:induction false} LevelOrderStarts(pending: Dependencies, order: seq<string>)
    requires LevelOrder(pending, order)
    ensures StartsInOrder(pending, order)
    decreases |order|
  {
    if |pending| == 0 {
      assert pending.Keys == {};
    } else {
      var level := Ready(pending);
      var first, later := order[..|level|], order[|level|..];
      LevelOrderStarts(pending - level, later);
      AscendingDistinct(first);
      assert order == first + later;
      LevelThenRest(pending, first, later);
    }
  }

  lemma LevelThenRest(pending: Dependencies, first: seq<string>, later: seq<string>)
    requires Distinct(first) && Members(first) == Ready(pending)
    requires StartsInOrder(pending - Ready(pending), later)
    ensures StartsInOrder(pending, first + later)
  {
    var level := Ready(pending);
    DistinctConcat(first, later);
    assert Members(first + later) == pending.Keys;
    var order := first + later;
    forall i, d | 0 <= i < |order| && order[i] in pending && d in pending[order[i]] && d in pending.Keys
      ensures d in order[..i]
    {
      assert Waits(pending, order[i]);
      assert forall j :: 0 <= j < |first| ==> first[j] in Members(first);
      assert later[i - |first|] in Members(later);
      assert order[..i] == first + later[..i - |first|];
      if d in level { assert d in Members(first); }
    }
  }

  /** A knot is never started, so it rules out every order. */
  lemma {:induction false} KnotHasNoOrder(pending: Dependencies, knot: set<string>, order: seq<string>)
    requires Knot(pending, knot)
    ensures !LevelOrder(pending, order)
    decreases |order|
  {
    KnotOutlivesLevel(pending, knot);
    if 0 < |Ready(pending)| <= |order| {
      KnotHasNoOrder(pending - Ready(pending), knot, order[|Ready(pending)|..]);
    }
  }

  lemma KnotOutlivesLevel(pending: Dependencies, knot: set<string>)
    requires Knot(pending, knot)
    ensures Knot(pending - Ready(pending), knot) && |pending| != 0
  {
    var rest := pending - Ready(pending);
    var s :| s in knot;
    assert s in pending;
    forall t | t in knot
      ensures t in rest && NeedsOneOf(rest, t, knot)
    {
      assert NeedsOneOf(pending, t, knot);
      var d :| d in pending[t] && d in knot;
      assert Waits(pending, t);
    }
  }

  /** One sweep over the pending map, in whatever order it is iterated. */
  method CollectReady(pending: Dependencies) returns (ready: seq<string>)
    ensures Distinct(ready) && Members(ready) == Ready(pending)
  {
    ready := [];
    var unseen := pending.Keys;
    while unseen != {}
      invariant unseen <= pending.Keys
      invariant Distinct(ready) && Members(ready) == Ready(pending) - unseen
      decreases unseen
    {
      var name :| name in unseen;
      var satisfied := Satisfied(pending, name);
      assert name !in Members(ready);
      if satisfied {
        DistinctConcat(ready, [name]);
        ready := ready + [name];
      }
      unseen := unseen - {name};
    }
  }

  method Satisfied(pending: Dependencies, name: string) returns (satisfied: bool)
    requires name in pending
    ensures satisfied <==> name in Ready(pending)
  {
    var dependencies := pending[name];
    for i := 0 to |dependencies|
      invariant forall d :: d in dependencies[..i] ==> d !in pending
    {
      if dependencies[i] in pending {
        assert Waits(pending, name);
        return false;
      }
    }
    assert dependencies[..|dependencies|] == dependencies;
    return true;
  }

  /**
   `orderByDependencies`: an order exactly when there is no knot, and then the
   one order, whatever sequence the map hands its entries out in.
   */
  method OrderByDependencies(deps: Dependencies) returns (r: OrderResult)
    ensures r.Ordered? ==> LevelOrder(deps, r.order) && StartsInOrder(deps, r.order)
    ensures r.Cyclic? ==> Knot(deps, r.remaining)
    ensures r.Ordered? <==> !exists knot :: Knot(deps, knot)
  {
    var pending := deps;
    var order: seq<string> := [];
    EverythingLeft(deps);
    while |pending| > 0
      invariant Remainder(deps, order, pending)
      decreases |pending|
    {
      var ready := CollectReady(pending);
      if |ready| == 0 {
        assert Ready(pending) == {};
        StuckIsKnot(deps, pending);
        return Cyclic(pending.Keys);
      }
      var sorted := SortStrings(ready);
      EmptyMembers(ready);
      EmptyMembers(sorted);
      OneLevel(deps, order, pending, ready, sorted);
      order, pending := order + sorted, pending - Members(sorted);
    }
    NothingLeft(deps, order, pending);
    r := Ordered(order);
  }

  /** What is pending is what an order for all of it still has to say. */
  ghost predicate Remainder(deps: Dependencies, order: seq<string>, pending: Dependencies)
  {
    && pending.Keys <= deps.Keys && (forall s :: s in pending ==> pending[s] == deps[s])
    && forall rest :: LevelOrder(pending, rest) ==> LevelOrder(deps, order + rest)
  }

  lemma EverythingLeft(deps: Dependencies)
    ensures Remainder(deps, [], deps)
  {
    forall rest: seq<string> | LevelOrder(deps, rest)
      ensures LevelOrder(deps, [] + rest)
    {
      assert [] + rest == rest;
    }
  }

  lemma OneLevel(deps: Dependencies, order: seq<string>, pending: Dependencies, ready: seq<string>, sorted: seq<string>)
    requires Remainder(deps, order, pending) && |pending| > 0
    requires Members(ready) == Ready(pending) && ready != []
    requires Ascending(sorted) && Members(sorted) == Members(ready) && sorted != []
    ensures |pending - Members(sorted)| < |pending|
    ensures Remainder(deps, order + sorted, pending - Members(sorted))
  {
    hide LevelOrder, Ascending, Ready;
    var remaining := pending - Members(sorted);
    LevelShrinks(pending, ready, sorted);
    forall rest | LevelOrder(remaining, rest)
      ensures LevelOrder(deps, (order + sorted) + rest)
    {
      LevelInFront(pending, sorted, rest);
      assert (order + sorted) + rest == order + (sorted + rest);
    }
  }

  lemma LevelShrinks(pending: Dependencies, ready: seq<string>, sorted: seq<string>)
    requires Members(ready) == Ready(pending) && ready != [] && Members(sorted) == Members(ready)
    ensures |pending - Members(sorted)| < |pending|
  {
    var remaining := pending - Members(sorted);
    assert ready[0] in Members(ready);
    assert remaining.Keys == pending.Keys - Members(sorted);
    SubsetSmaller(remaining.Keys, pending.Keys, ready[0]);
  }

  /** The services that are ready, sorted, in front of an order of the others. */
  lemma LevelInFront(pending: Dependencies, sorted: seq<string>, rest: seq<string>)
    requires |pending| > 0 && Ascending(sorted) && Members(sorted) == Ready(pending) && sorted != []
    requires LevelOrder(pending - Members(sorted), rest)
    ensures LevelOrder(pending, sorted + rest)
  {
    AscendingDistinct(sorted);
    DistinctCount(sorted);
    assert (sorted + rest)[..|sorted|] == sorted && (sorted + rest)[|sorted|..] == rest;
  }

  lemma NothingLeft(deps: Dependencies, order: seq<string>, pending: Dependencies)
    requires Remainder(deps, order, pending) && |pending| == 0
    ensures LevelOrder(deps, order) && StartsInOrder(deps, order)
    ensures forall knot :: !Knot(deps, knot)
  {
    assert LevelOrder(pending, []);
    assert order + [] == order;
    LevelOrderStarts(deps, order);
    forall knot ensures !Knot(deps, knot) {
      if Knot(deps, knot) { KnotHasNoOrder(deps, knot, order); }
    }
  }

  lemma SubsetSmaller<T>(a: set<T>, b: set<T>, x: T)
    requires a <= b && x in b && x !in a
    ensures |a| < |b|
  {
    var c := b - {x};
    assert a <= c;
    SubsetCount(a, c);
  }

  lemma {:induction false} SubsetCount<T>(a: set<T>, b: set<T>)
    requires a <= b
    ensures |a| <= |b|
  {
    if a != {} {
      var x :| x in a;
      SubsetCount(a - {x}, b - {x});
    }
  }

  lemma StuckIsKnot(deps: Dependencies, pending: Dependencies)
    requires pending.Keys <= deps.Keys && (forall s :: s in pending ==> pending[s] == deps[s])
    requires |pending| > 0 && Ready(pending) == {}
    ensures Knot(deps, pending.Keys)
  {
    forall s | s in pending.Keys
      ensures NeedsOneOf(deps, s, pending.Keys)
    {
      assert s !in Ready(pending);
      assert Waits(pending, s);
      var d :| d in pending[s] && d in pending;
      assert d in deps[s] && d in pending.Keys;
    }
  }

  /** `reversed`: stop order is start order backwards. */
  method Reversed(order: seq<string>) returns (out: array<string>)
    ensures fresh(out) && out.Length == |order|
    ensures forall i :: 0 <= i < |order| ==> out[i] == order[|order| - 1 - i]
  {
    out := new string[|order|];
    for index := 0 to |order|
      invariant forall i :: |order| - index <= i < |order| ==> out[i] == order[|order| - 1 - i]
    {
      out[|order| - 1 - index] := order[index];
    }
  }
}
