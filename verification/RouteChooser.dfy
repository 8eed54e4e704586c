/** chooseRoute as it runs: an allow-list filled in a loop, candidates appended in a loop and sorted in place. */
module RouteChooser {
  import opened Decimal
  import opened EvaluatorTypes
  import opened Hex
  import opened RouteChoice
  import opened Wrappers

  // ---------------------------------------------------------------- the in-place stable sort

  /** Order and ties determine a sequence of routes: there is only one stable descending sort. */
  lemma {:induction false} StableSortIsUnique(a: seq<Route>, b: seq<Route>)
    requires Descending(a) && Descending(b)
    requires SameTies(a, b)
    ensures a == b
  {
    if a == [] {
      TopTie(b, a);
    } else {
      var top := Expected(a[0]);
      TopTie(a, b);
      TopTie(b, a);
      assert Ties(a, top) == Ties(b, top);
      assert a[0] == Ties(a, top)[0] == b[0];
      forall value
        ensures Ties(a[1..], value) == Ties(b[1..], value)
      {
        assert Ties(a, value) == Ties(b, value);
        var head := if top == value then [a[0]] else [];
        assert Ties(a, value)[|head|..] == Ties(a[1..], value);
        assert Ties(b, value)[|head|..] == Ties(b[1..], value);
      }
      StableSortIsUnique(a[1..], b[1..]);
      assert a == [a[0]] + a[1..] && b == [b[0]] + b[1..];
    }
  }

  ghost predicate SameTies(a: seq<Route>, b: seq<Route>)
  {
    forall value :: Ties(a, value) == Ties(b, value)
  }

  /** Whatever leads one sequence is matched by the head of the other. */
  lemma TopTie(a: seq<Route>, b: seq<Route>)
    requires Descending(b) && SameTies(a, b)
    ensures a != [] ==> b != [] && Expected(b[0]) >= Expected(a[0])
  {
    if a != [] {
      assert Ties(a, Expected(a[0])) == Ties(b, Expected(a[0]));
      TieFound(b, Expected(a[0]));
    }
  }

  lemma {:induction false} TieFound(rs: seq<Route>, value: int)
    ensures Ties(rs, value) != [] ==> exists i :: 0 <= i < |rs| && Expected(rs[i]) == value
  {
    if rs != [] && Expected(rs[0]) != value {
      TieFound(rs[1..], value);
      assert forall i :: 0 <= i < |rs[1..]| ==> rs[1..][i] == rs[i + 1];
    }
  }

  lemma {:induction false} TiesAppend(a: seq<Route>, b: seq<Route>, value: int)
    ensures Ties(a + b, value) == Ties(a, value) + Ties(b, value)
  {
    var all := a + b;
    if a == [] {
      assert all == b;
    } else {
      assert all[1..] == a[1..] + b && all[0] == a[0];
      TiesAppend(a[1..], b, value);
      Associates(if Expected(a[0]) == value then [a[0]] else [], Ties(a[1..], value), Ties(b, value));
    }
  }

  /** Exchanging two neighbours of different rank disturbs no ties. */
  lemma SwapKeepsTies(a: seq<Route>, b: seq<Route>, j: nat)
    requires 0 < j < |a| && b == a[j := a[j - 1]][j - 1 := a[j]]
    requires Expected(a[j]) != Expected(a[j - 1])
    ensures SameTies(a, b)
  {
    var front, x, y, back := a[..j - 1], a[j - 1], a[j], a[j + 1..];
    assert a == front + ([x, y] + back) && b == front + ([y, x] + back);
    forall value
      ensures Ties(a, value) == Ties(b, value)
    {
      TiesAppend(front, [x, y] + back, value);
      TiesAppend(front, [y, x] + back, value);
      TiesAppend([x, y], back, value);
      TiesAppend([y, x], back, value);
      assert [x, y][1..] == [y] && [y, x][1..] == [x];
    }
  }

  /** a[..n] but for position j is descending, and position j is below nothing that follows it. */
  ghost predicate AllButOne(a: seq<Route>, n: nat, j: nat)
    requires j < n <= |a|
  {
    && (forall p, q :: 0 <= p < q < n && p != j && q != j ==> Expected(a[p]) >= Expected(a[q]))
    && (forall q :: j < q < n ==> Expected(a[j]) >= Expected(a[q]))
  }

  lemma SwapKeepsOrder(a: seq<Route>, b: seq<Route>, n: nat, j: nat)
    requires 0 < j < n <= |a| && b == a[j := a[j - 1]][j - 1 := a[j]]
    requires AllButOne(a, n, j) && Expected(a[j]) > Expected(a[j - 1])
    ensures AllButOne(b, n, j - 1)
  {
  }

  lemma SameTiesTransitive(a: seq<Route>, b: seq<Route>, c: seq<Route>)
    requires SameTies(a, b) && SameTies(b, c)
    ensures SameTies(a, c)
  {
    forall value
      ensures Ties(a, value) == Ties(c, value)
    {
      assert Ties(a, value) == Ties(b, value) && Ties(b, value) == Ties(c, value);
    }
  }

  lemma InsertionStarts(a: seq<Route>, i: nat)
    requires i < |a| && Descending(a[..i])
    ensures AllButOne(a, i + 1, i)
  {
    assert forall p :: 0 <= p < i ==> a[..i][p] == a[p];
  }

  lemma InsertionEnds(a: seq<Route>, n: nat, j: nat)
    requires j < n <= |a| && AllButOne(a, n, j)
    requires j > 0 ==> Expected(a[j]) <= Expected(a[j - 1])
    ensures Descending(a[..n])
  {
    forall p, q | 0 <= p < q < n
      ensures Expected(a[p]) >= Expected(a[q])
    {
      if q == j && p < j - 1 {
        assert Expected(a[p]) >= Expected(a[j - 1]);
      }
    }
  }

  lemma StablySorted(was: seq<Route>, now: seq<Route>)
    requires Descending(now) && SameTies(was, now)
    ensures now == SortDescending(was)
  {
    forall value
      ensures Ties(now, value) == Ties(SortDescending(was), value)
    {
      SortIsStable(was, value);
      assert Ties(was, value) == Ties(now, value);
    }
    SortIsStable(was, 0);
    StableSortIsUnique(now, SortDescending(was));
  }

  /** The library's stable sort of short slices: insertion by neighbour swaps. */
  method SliceStable(a: array<Route>)
    modifies a
    ensures a[..] == SortDescending(old(a[..]))
  {
    ghost var was := a[..];
    var i := 0;
    while i < a.Length
      invariant 0 <= i <= a.Length
      invariant Descending(a[..i])
      invariant SameTies(was, a[..])
    {
      var j := i;
      InsertionStarts(a[..], i);
      while j > 0 && Expected(a[j]) > Expected(a[j - 1])
        invariant 0 <= j <= i
        invariant AllButOne(a[..], i + 1, j)
        invariant SameTies(was, a[..])
      {
        ghost var before := a[..];
        a[j], a[j - 1] := a[j - 1], a[j];
        assert a[..] == before[j := before[j - 1]][j - 1 := before[j]];
        SwapKeepsTies(before, a[..], j);
        SwapKeepsOrder(before, a[..], i + 1, j);
        SameTiesTransitive(was, before, a[..]);
        j := j - 1;
      }
      InsertionEnds(a[..], i + 1, j);
      assert a[..][..i + 1] == a[..i + 1];
      i := i + 1;
    }
    assert a[..i] == a[..];
    StablySorted(was, a[..]);
  }

  // ---------------------------------------------------------------- the choice

  method ChooseRouteInPlace(now: nat, req: Request, routes: seq<Route>) returns (r: Result<Decision, Fault>)
    ensures r == ChooseRoute(now, req, routes)
  {
    if req.intentID == "" || req.owner == "" || req.tokenIn == "" || req.amount == "" || req.router == ""
      || req.chainID == "" {
      return Err(MissingField);
    }
    if req.deadline <= now {
      return Err(DeadlinePassed);
    }
    if req.expiry <= now || req.deadline > req.expiry {
      return Err(ExpiryInvalid);
    }
    var parsed := Parse(req.constraints.minimumOutput);
    if parsed.None? || parsed.value <= 0 {
      return Err(MinimumInvalid);
    }
    var minimum := parsed.value;
    var adapters := req.constraints.allowedAdapters;
    var allowed: set<string> := {};
    for k := 0 to |adapters|
      invariant forall s :: s in allowed <==> exists i :: 0 <= i < k && Lower(adapters[i]) == s
    {
      allowed := allowed + {Lower(adapters[k])};
    }
    ghost var keep := r => Eligible(req, minimum, r);
    var candidates: seq<Route> := [];
    assert routes[..0] == [];
    for k := 0 to |routes|
      invariant candidates == Filter(routes[..k], keep)
    {
      var route := routes[k];
      var expected := Parse(route.expectedOutput);
      FilterAppend(routes[..k], route, keep);
      assert routes[..k] + [route] == routes[..k + 1];
      assert Lower(route.adapter) in allowed <==> Listed(adapters, route.adapter);
      if expected.Some? && route.validUntil >= req.deadline && Lower(route.adapter) in allowed
         && route.risk <= req.constraints.maximumRisk && expected.value >= minimum
      {
        candidates := candidates + [route];
      }
    }
    assert routes[..|routes|] == routes;
    assert candidates == Candidates(req, routes);
    if |candidates| == 0 {
      return Err(NoRoute);
    }
    var sorted := new Route[|candidates|](i requires 0 <= i < |candidates| => candidates[i]);
    assert sorted[..] == candidates;
    SliceStable(sorted);
    r := Ok(DecisionFor(req, sorted[0]));
  }
}
