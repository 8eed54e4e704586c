/** Which configured venue a decision goes to: the one that answered most, of all that qualify. */
module BestQuote {
  import opened Bytes
  import opened Decimal
  import opened Evaluation
  import opened EvaluatorTypes
  import opened Hex
  import opened Quotes
  import opened RouteChoice
  import opened Wrappers

  /** A live configuration through a listed adapter, within the risk, whose venue yields at least the minimum. */
  predicate Qualifies(out: AmountsOut, cfg: V2Config, req: Request, amount: nat, minimum: nat)
  {
    && Live(out, cfg, req, amount)
    && Listed(req.constraints.allowedAdapters, cfg.adapter)
    && cfg.risk <= req.constraints.maximumRisk
    && Yield(out, cfg, req, amount) >= minimum
  }

  lemma OfferEligible(r: Route, out: AmountsOut, cfg: V2Config, req: Request, amount: nat, minimum: nat)
    requires Live(out, cfg, req, amount) && Offers(r, out, cfg, req, amount)
    ensures Expected(r) == Yield(out, cfg, req, amount)
    ensures Eligible(req, minimum, r) <==> Qualifies(out, cfg, req, amount, minimum)
  {
  }

  /** With live quotes a decision is made exactly when the request is complete and in time, its amount is
      positive, and some configuration qualifies. */
  lemma ChoosesExactly(h: Hasher, w: World, req: Request)
    requires w.source.V2Source? && w.source.configured
    ensures Choose(h, w, req).Ok? <==>
      && RequestFault(w.now, req).None? && Positive(req.amount).Some?
      && exists k :: 0 <= k < |w.source.configs| && Qualifies(w.source.out, w.source.configs[k], req,
           Positive(req.amount).value, Positive(req.constraints.minimumOutput).value)
  {
    var out, configs := w.source.out, w.source.configs;
    var at := QuotesAreComplete(h.keccak, out, configs, req);
    if RequestFault(w.now, req).None? && Available(h, w.source, req).Ok? {
      var routes := Available(h, w.source, req).value;
      var amount, minimum := Positive(req.amount).value, Positive(req.constraints.minimumOutput).value;
      ChoiceIsEarliestBest(w.now, req, routes);
      if Choose(h, w, req).Ok? {
        var i :| 0 <= i < |routes| && Eligible(req, minimum, routes[i]);
        OfferEligible(routes[i], out, configs[at[i]], req, amount, minimum);
      }
      forall k | 0 <= k < |configs| && Qualifies(out, configs[k], req, amount, minimum)
        ensures Choose(h, w, req).Ok?
      {
        var i := Position(out, configs, req, amount, at, k);
        OfferEligible(routes[i], out, configs[k], req, amount, minimum);
      }
    }
  }

  lemma Position(out: AmountsOut, configs: seq<V2Config>, req: Request, amount: nat, at: seq<nat>, k: nat)
    returns (i: nat)
    requires AllLive(out, configs, req, amount, at) && k < |configs| && Live(out, configs[k], req, amount)
    ensures i < |at| && at[i] == k
  {
    i :| 0 <= i < |at| && at[i] == k;
  }

  /** The decision takes adapter, output token and expected output from this configuration and its venue. */
  predicate Takes(d: Decision, out: AmountsOut, cfg: V2Config, req: Request, amount: nat)
    requires Live(out, cfg, req, amount)
  {
    && d.adapter == cfg.adapter
    && IsHexAddress(d.tokenOut) && HexToAddress(d.tokenOut) == HexToAddress(cfg.path[|cfg.path| - 1])
    && Parse(d.expectedOutput) == Some(Yield(out, cfg, req, amount))
  }

  /** No qualifying configuration yields more than this one, and none before it as much. */
  ghost predicate Best(out: AmountsOut, configs: seq<V2Config>, req: Request, amount: nat, minimum: nat, j: nat)
  {
    && j < |configs| && Qualifies(out, configs[j], req, amount, minimum)
    && forall k :: 0 <= k < |configs| && Qualifies(out, configs[k], req, amount, minimum) ==>
      && Yield(out, configs[k], req, amount) <= Yield(out, configs[j], req, amount)
      && (k < j ==> Yield(out, configs[k], req, amount) < Yield(out, configs[j], req, amount))
  }

  /** Of all configurations that qualify, the decision takes the first whose venue yields most. */
  lemma DecisionIsBest(h: Hasher, w: World, req: Request) returns (j: nat)
    requires w.source.V2Source? && Choose(h, w, req).Ok?
    ensures Positive(req.amount).Some? && Positive(req.constraints.minimumOutput).Some?
    ensures var out, configs, amount := w.source.out, w.source.configs, Positive(req.amount).value;
      && Best(out, configs, req, amount, Positive(req.constraints.minimumOutput).value, j)
      && Takes(Choose(h, w, req).value, out, configs[j], req, amount)
  {
    var out, configs := w.source.out, w.source.configs;
    var at := QuotesAreComplete(h.keccak, out, configs, req);
    var routes := Available(h, w.source, req).value;
    var amount, minimum := Positive(req.amount).value, Positive(req.constraints.minimumOutput).value;
    ChoiceIsEarliestBest(w.now, req, routes);
    var i: nat :| i < |routes| && BestEligible(req, routes, i)
      && Choose(h, w, req).value == DecisionFor(req, routes[i]);
    j := at[i];
    BestOffer(out, configs, req, amount, minimum, at, routes, i);
  }

  lemma BestOffer(out: AmountsOut, configs: seq<V2Config>, req: Request, amount: nat, minimum: nat, at: seq<nat>,
                  routes: seq<Route>, i: nat)
    requires AllLive(out, configs, req, amount, at) && Listing(out, configs, req, amount, at, routes)
    requires i < |routes| && Positive(req.constraints.minimumOutput) == Some(minimum) && BestEligible(req, routes, i)
    ensures Best(out, configs, req, amount, minimum, at[i])
  {
    OfferEligible(routes[i], out, configs[at[i]], req, amount, minimum);
    forall k | 0 <= k < |configs| && Qualifies(out, configs[k], req, amount, minimum)
      ensures Yield(out, configs[k], req, amount) <= Yield(out, configs[at[i]], req, amount)
      ensures k < at[i] ==> Yield(out, configs[k], req, amount) < Yield(out, configs[at[i]], req, amount)
    {
      var m := Position(out, configs, req, amount, at, k);
      OfferEligible(routes[m], out, configs[k], req, amount, minimum);
      assert m > i ==> at[m] > at[i];
    }
  }
}
