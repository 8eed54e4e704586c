/** chooseRoute: filter by the private constraints, sort stably by expected output, take the head. */
module RouteChoice {
  import opened Decimal
  import opened EvaluatorTypes
  import opened Hex
  import opened Wrappers

  // The comparison key; only routes whose text parses are ever compared.
  function Expected(r: Route): int
  {
    match Parse(r.expectedOutput)
    case Some(n) => n
    case None => 0
  }

  /** A stable descending sort (sort.SliceStable with "greater than" as its order). */
  function SortDescending(rs: seq<Route>): (out: seq<Route>)
    ensures |out| == |rs|
  {
    if rs == [] then [] else Insert(rs[0], SortDescending(rs[1..]))
  }

  function Insert(r: Route, rs: seq<Route>): (out: seq<Route>)
    ensures |out| == |rs| + 1
  {
    if rs == [] || Expected(r) >= Expected(rs[0]) then [r] + rs else [rs[0]] + Insert(r, rs[1..])
  }

  predicate Descending(rs: seq<Route>)
  {
    forall i, j :: 0 <= i < j < |rs| ==> Expected(rs[i]) >= Expected(rs[j])
  }

  // The routes of one expected output, in order.
  function Ties(rs: seq<Route>, value: int): seq<Route>
  {
    if rs == [] then []
    else (if Expected(rs[0]) == value then [rs[0]] else []) + Ties(rs[1..], value)
  }

  lemma {:induction false} InsertMembers(r: Route, rs: seq<Route>)
    ensures multiset(Insert(r, rs)) == multiset{r} + multiset(rs)
  {
    if rs != [] && Expected(r) < Expected(rs[0]) {
      InsertMembers(r, rs[1..]);
      assert rs == [rs[0]] + rs[1..];
    }
  }

  lemma {:induction false} InsertSorts(r: Route, rs: seq<Route>)
    requires Descending(rs)
    ensures Descending(Insert(r, rs))
  {
    if rs != [] && Expected(r) < Expected(rs[0]) {
      var tail := Insert(r, rs[1..]);
      InsertSorts(r, rs[1..]);
      forall j | 0 <= j < |tail|
        ensures Expected(rs[0]) >= Expected(tail[j])
      {
        InsertFrom(r, rs[1..], j);
      }
    }
  }

  lemma {:induction false} InsertFrom(r: Route, rs: seq<Route>, j: nat)
    requires j <= |rs|
    ensures Insert(r, rs)[j] == r || Insert(r, rs)[j] in rs
  {
    if rs != [] && Expected(r) < Expected(rs[0]) && j > 0 {
      InsertFrom(r, rs[1..], j - 1);
    }
  }

  lemma {:induction false} InsertTies(r: Route, rs: seq<Route>, value: int)
    requires Descending(rs)
    ensures Ties(Insert(r, rs), value) == Ties([r] + rs, value)
  {
    if rs != [] && Expected(r) < Expected(rs[0]) {
      InsertTies(r, rs[1..], value);
      assert ([r] + rs)[1..] == rs && ([r] + rs[1..])[1..] == rs[1..];
      assert ([rs[0]] + Insert(r, rs[1..]))[1..] == Insert(r, rs[1..]);
    }
  }

  /** The sort is a stable descending permutation. */
  lemma {:induction false} SortIsStable(rs: seq<Route>, value: int)
    ensures Descending(SortDescending(rs))
    ensures multiset(SortDescending(rs)) == multiset(rs)
    ensures Ties(SortDescending(rs), value) == Ties(rs, value)
  {
    if rs != [] {
      SortIsStable(rs[1..], value);
      InsertSorts(rs[0], SortDescending(rs[1..]));
      InsertMembers(rs[0], SortDescending(rs[1..]));
      InsertTies(rs[0], SortDescending(rs[1..]), value);
      assert rs == [rs[0]] + rs[1..];
      assert ([rs[0]] + SortDescending(rs[1..]))[1..] == SortDescending(rs[1..]);
    }
  }

  /** Position k holds the earliest route of maximum expected output. */
  predicate EarliestBest(rs: seq<Route>, k: nat)
    requires k < |rs|
  {
    && (forall j :: 0 <= j < |rs| ==> Expected(rs[j]) <= Expected(rs[k]))
    && (forall j :: 0 <= j < k ==> Expected(rs[j]) < Expected(rs[k]))
  }

  lemma {:induction false} HeadIsEarliestBest(rs: seq<Route>) returns (k: nat)
    requires rs != []
    ensures k < |rs| && EarliestBest(rs, k) && SortDescending(rs)[0] == rs[k]
  {
    if |rs| == 1 {
      k := 0;
    } else {
      var j := HeadIsEarliestBest(rs[1..]);
      k := if Expected(rs[0]) >= Expected(rs[1..][j]) then 0 else j + 1;
      assert forall i :: 1 <= i < |rs| ==> rs[i] == rs[1..][i - 1];
    }
  }

  // ---------------------------------------------------------------- eligibility

  predicate Listed(adapters: seq<string>, adapter: string)
  {
    exists i :: 0 <= i < |adapters| && Lower(adapters[i]) == Lower(adapter)
  }

  predicate Eligible(req: Request, minimum: int, r: Route)
  {
    && Parse(r.expectedOutput).Some?
    && r.validUntil >= req.deadline
    && Listed(req.constraints.allowedAdapters, r.adapter)
    && r.risk <= req.constraints.maximumRisk
    && Expected(r) >= minimum
  }

  function Filter(rs: seq<Route>, keep: Route -> bool): seq<Route>
  {
    if rs == [] then []
    else (if keep(rs[0]) then [rs[0]] else []) + Filter(rs[1..], keep)
  }

  lemma {:induction false} FilterAppend(rs: seq<Route>, r: Route, keep: Route -> bool)
    ensures Filter(rs + [r], keep) == Filter(rs, keep) + if keep(r) then [r] else []
  {
    if rs == [] {
      assert [] + [r] == [r];
    } else {
      FilterAppend(rs[1..], r, keep);
      assert (rs + [r])[1..] == rs[1..] + [r];
    }
  }

  /** Filtering keeps order: the i-th kept route stands at some place, and kept routes before it before. */
  lemma {:induction false} FilterPlaces(rs: seq<Route>, keep: Route -> bool, i: nat) returns (k: nat)
    requires i < |Filter(rs, keep)|
    ensures k < |rs| && keep(rs[k]) && rs[k] == Filter(rs, keep)[i]
    ensures forall j :: 0 <= j < k && keep(rs[j]) ==> rs[j] in Filter(rs, keep)[..i]
  {
    if keep(rs[0]) {
      if i == 0 {
        k := 0;
      } else {
        var j := FilterPlaces(rs[1..], keep, i - 1);
        k := j + 1;
        forall m | 0 <= m < k && keep(rs[m])
          ensures rs[m] in Filter(rs, keep)[..i]
        {
          assert Filter(rs, keep)[..i] == [rs[0]] + Filter(rs[1..], keep)[..i - 1];
          if m > 0 {
            assert rs[m] == rs[1..][m - 1];
            assert rs[m] in Filter(rs[1..], keep)[..i - 1];
          }
        }
      }
    } else {
      var j := FilterPlaces(rs[1..], keep, i);
      k := j + 1;
      assert Filter(rs, keep) == Filter(rs[1..], keep);
      forall m | 0 <= m < k && keep(rs[m])
        ensures rs[m] in Filter(rs, keep)[..i]
      {
        if m > 0 {
          assert rs[m] == rs[1..][m - 1];
          assert rs[m] in Filter(rs[1..], keep)[..i];
        }
      }
    }
  }

  lemma {:induction false} FilterMember(rs: seq<Route>, keep: Route -> bool, r: Route)
    ensures r in Filter(rs, keep) <==> r in rs && keep(r)
  {
    if rs != [] {
      FilterMember(rs[1..], keep, r);
      assert rs == [rs[0]] + rs[1..];
    }
  }

  // ---------------------------------------------------------------- the choice

  /** The checks on the request before any route is looked at. */
  function RequestFault(now: nat, req: Request): Option<Fault>
  {
    if req.intentID == "" || req.owner == "" || req.tokenIn == "" || req.amount == "" || req.router == ""
      || req.chainID == ""
    then Some(MissingField)
    else if req.deadline <= now then Some(DeadlinePassed)
    else if req.expiry <= now || req.deadline > req.expiry then Some(ExpiryInvalid)
    else if Positive(req.constraints.minimumOutput).None? then Some(MinimumInvalid)
    else None
  }

  function DecisionFor(req: Request, r: Route): Decision
  {
    Decision(req.intentID, req.owner, req.tokenIn, req.amount, "", r.adapter, r.tokenOut, r.actionData,
             req.constraints.minimumOutput, req.nonce, req.deadline, r.expectedOutput, "", "")
  }

  function Candidates(req: Request, routes: seq<Route>): seq<Route>
    requires Positive(req.constraints.minimumOutput).Some?
  {
    Filter(routes, r => Eligible(req, Positive(req.constraints.minimumOutput).value, r))
  }

  function ChooseRoute(now: nat, req: Request, routes: seq<Route>): Result<Decision, Fault>
  {
    var fault := RequestFault(now, req);
    if fault.Some? then Err(fault.value)
    else
      var sorted := SortDescending(Candidates(req, routes));
      if sorted == [] then Err(NoRoute) else Ok(DecisionFor(req, sorted[0]))
  }

  /** routes[k] is eligible, no eligible route expects more, and no earlier one as much. */
  ghost predicate BestEligible(req: Request, routes: seq<Route>, k: nat)
    requires k < |routes| && Positive(req.constraints.minimumOutput).Some?
  {
    var minimum := Positive(req.constraints.minimumOutput).value;
    && Eligible(req, minimum, routes[k])
    && (forall j ::
        0 <= j < |routes| && Eligible(req, minimum, routes[j]) ==> Expected(routes[j]) <= Expected(routes[k]))
    && (forall j :: 0 <= j < k && Eligible(req, minimum, routes[j]) ==> Expected(routes[j]) < Expected(routes[k]))
  }

  /** Once the request passes its checks, a decision is made exactly when some route is eligible, and it
      is for the earliest eligible route of maximum expected output. */
  lemma ChoiceIsEarliestBest(now: nat, req: Request, routes: seq<Route>)
    requires RequestFault(now, req).None?
    ensures var minimum := Positive(req.constraints.minimumOutput).value;
      ChooseRoute(now, req, routes).Ok? <==> exists j :: 0 <= j < |routes| && Eligible(req, minimum, routes[j])
    ensures ChooseRoute(now, req, routes).Err? ==> ChooseRoute(now, req, routes).error == NoRoute
    ensures ChooseRoute(now, req, routes).Ok? ==>
      exists k: nat :: k < |routes| && BestEligible(req, routes, k)
        && ChooseRoute(now, req, routes).value == DecisionFor(req, routes[k])
  {
    var minimum := Positive(req.constraints.minimumOutput).value;
    var keep := r => Eligible(req, minimum, r);
    var kept := Filter(routes, keep);
    assert Candidates(req, routes) == kept;
    forall j | 0 <= j < |routes|
      ensures routes[j] in kept <==> keep(routes[j])
    {
      FilterMember(routes, keep, routes[j]);
    }
    if kept != [] {
      var i := HeadIsEarliestBest(kept);
      var k := FilterPlaces(routes, keep, i);
      assert forall r :: r in kept ==> Expected(r) <= Expected(kept[i]);
      assert forall r :: r in kept[..i] ==> Expected(r) < Expected(kept[i]);
      assert BestEligible(req, routes, k);
    }
  }

  // Where one order yields a decision, the other does, for at least as much.
  lemma ShuffledIsAsGood(now: nat, req: Request, routes: seq<Route>, shuffled: seq<Route>)
    requires multiset(routes) == multiset(shuffled) && ChooseRoute(now, req, routes).Ok?
    ensures ChooseRoute(now, req, shuffled).Ok?
    ensures Parse(ChooseRoute(now, req, routes).value.expectedOutput).Some?
      && Parse(ChooseRoute(now, req, shuffled).value.expectedOutput).Some?
    ensures Parse(ChooseRoute(now, req, routes).value.expectedOutput).value
      <= Parse(ChooseRoute(now, req, shuffled).value.expectedOutput).value
  {
    ChoiceIsEarliestBest(now, req, routes);
    ChoiceIsEarliestBest(now, req, shuffled);
    var k: nat :| k < |routes| && BestEligible(req, routes, k)
      && ChooseRoute(now, req, routes).value == DecisionFor(req, routes[k]);
    assert routes[k] in multiset(routes);
    var j :| 0 <= j < |shuffled| && shuffled[j] == routes[k];
    assert Eligible(req, Positive(req.constraints.minimumOutput).value, shuffled[j]);
  }

  /** Reordering the quotes changes neither whether a decision is made nor the expected output chosen. */
  lemma OrderIsIrrelevant(now: nat, req: Request, routes: seq<Route>, shuffled: seq<Route>)
    requires multiset(routes) == multiset(shuffled)
    ensures ChooseRoute(now, req, routes).Ok? == ChooseRoute(now, req, shuffled).Ok?
    ensures ChooseRoute(now, req, routes).Ok? ==>
      Parse(ChooseRoute(now, req, routes).value.expectedOutput)
        == Parse(ChooseRoute(now, req, shuffled).value.expectedOutput)
  {
    if ChooseRoute(now, req, routes).Ok? {
      ShuffledIsAsGood(now, req, routes, shuffled);
    }
    if ChooseRoute(now, req, shuffled).Ok? {
      ShuffledIsAsGood(now, req, shuffled, routes);
    }
  }

  // ---------------------------------------------------------------- the standalone service

  /** The older standalone service: adapters compared letter by letter, no quote validity. */
  predicate StandaloneEligible(req: Request, minimum: int, r: Route)
  {
    && Parse(r.expectedOutput).Some?
    && r.adapter in req.constraints.allowedAdapters
    && r.risk <= req.constraints.maximumRisk
    && Expected(r) >= minimum
  }

  function StandaloneChooseRoute(now: nat, req: Request, routes: seq<Route>): Result<Decision, Fault>
  {
    var fault := RequestFault(now, req);
    if fault.Some? then Err(fault.value)
    else
      var minimum := Positive(req.constraints.minimumOutput).value;
      var sorted := SortDescending(Filter(routes, r => StandaloneEligible(req, minimum, r)));
      if sorted == [] then Err(NoRoute) else Ok(DecisionFor(req, sorted[0]))
  }

  predicate AllLower(req: Request, routes: seq<Route>)
  {
    && (forall i :: 0 <= i < |routes| ==> Lower(routes[i].adapter) == routes[i].adapter)
    && (forall i :: 0 <= i < |req.constraints.allowedAdapters| ==>
          Lower(req.constraints.allowedAdapters[i]) == req.constraints.allowedAdapters[i])
  }

  lemma {:induction false} FilterSame(rs: seq<Route>, f: Route -> bool, g: Route -> bool)
    requires forall i :: 0 <= i < |rs| ==> f(rs[i]) == g(rs[i])
    ensures Filter(rs, f) == Filter(rs, g)
  {
    if rs != [] {
      assert forall i :: 0 <= i < |rs[1..]| ==> rs[1..][i] == rs[i + 1];
      FilterSame(rs[1..], f, g);
    }
  }

  /** Where quotes outlive the deadline, whatever the standalone service accepts the scaffold accepts with
      at least its expected output, and on lower-case adapters they decide alike. */
  lemma ScaffoldDominatesStandalone(now: nat, req: Request, routes: seq<Route>)
    requires forall i :: 0 <= i < |routes| ==> routes[i].validUntil >= req.deadline
    ensures StandaloneChooseRoute(now, req, routes).Ok? ==>
      && ChooseRoute(now, req, routes).Ok?
      && Parse(StandaloneChooseRoute(now, req, routes).value.expectedOutput).Some?
      && Parse(ChooseRoute(now, req, routes).value.expectedOutput).Some?
      && Parse(ChooseRoute(now, req, routes).value.expectedOutput).value
           >= Parse(StandaloneChooseRoute(now, req, routes).value.expectedOutput).value
    ensures AllLower(req, routes) ==> StandaloneChooseRoute(now, req, routes) == ChooseRoute(now, req, routes)
  {
    if RequestFault(now, req).None? {
      var minimum := Positive(req.constraints.minimumOutput).value;
      var f := r => StandaloneEligible(req, minimum, r);
      var g := r => Eligible(req, minimum, r);
      if Filter(routes, f) != [] {
        var i := HeadIsEarliestBest(Filter(routes, f));
        var k := FilterPlaces(routes, f, i);
        StandaloneListed(req, minimum, routes[k]);
        ChoiceIsEarliestBest(now, req, routes);
        assert Eligible(req, minimum, routes[k]);
      }
      if AllLower(req, routes) {
        forall i | 0 <= i < |routes|
          ensures f(routes[i]) == g(routes[i])
        {
          LowerListed(req, routes, i);
        }
        FilterSame(routes, f, g);
        assert Candidates(req, routes) == Filter(routes, g);
      }
    }
  }

  lemma StandaloneListed(req: Request, minimum: int, r: Route)
    requires StandaloneEligible(req, minimum, r) && r.validUntil >= req.deadline
    ensures Eligible(req, minimum, r)
  {
  }

  lemma LowerListed(req: Request, routes: seq<Route>, i: nat)
    requires i < |routes| && AllLower(req, routes)
    ensures Listed(req.constraints.allowedAdapters, routes[i].adapter)
      <==> routes[i].adapter in req.constraints.allowedAdapters
  {
  }
}
