/** The live V2 quote source: which configured routes it quotes, and the calldata it builds for each. */
module Quotes {
  import opened Abi
  import opened Bytes
  import opened Decimal
  import opened EvaluatorTypes
  import opened Hex
  import opened PolicyCommitment
  import opened Wrappers

  datatype V2Config = V2Config(adapter: string, exchangeRouter: string, path: seq<string>, risk: Uint8)

  // getAmountsOut at a venue, decoded; absent when the call or its decoding fails
  type AmountsOut = (string, Word, seq<Address>) -> Option<seq<Word>>

  predicate Usable(cfg: V2Config, req: Request)
  {
    && IsHexAddress(cfg.adapter) && IsHexAddress(cfg.exchangeRouter) && 2 <= |cfg.path| <= 4
    && AllAddresses(cfg.path) && HexToAddress(cfg.path[0]) == HexToAddress(req.tokenIn)
  }

  // go-ethereum's packer keeps the low 256 bits of a big integer.
  function RouteCalldata(path: seq<Address>, minimum: nat, deadline: Uint64): Bytes
    requires |path| <= 4
  {
    EncodeRoute(V2Route(path, minimum % UINT256, deadline))
  }

  function RouteText(path: seq<Address>, minimum: nat, deadline: Uint64): string
    requires |path| <= 4
  {
    "0x" + EncodeHex(RouteCalldata(path, minimum, deadline))
  }

  function QuotedRoute(keccak: Bytes -> Word, cfg: V2Config, req: Request, minimum: nat, amounts: seq<Word>): Route
    requires 2 <= |cfg.path| <= 4 && |amounts| == |cfg.path|
  {
    var path := Addresses(cfg.path);
    Route(cfg.adapter, AddressHex(keccak, path[|path| - 1]), Format(amounts[|amounts| - 1]), cfg.risk,
          RouteText(path, minimum, req.deadline), req.deadline)
  }

  /** The route one configuration yields, if any. */
  function QuoteFor(keccak: Bytes -> Word, out: AmountsOut, cfg: V2Config, req: Request, amount: nat,
                    minimum: nat): Option<Route>
  {
    if !Usable(cfg, req) then None
    else match out(cfg.exchangeRouter, amount % UINT256, Addresses(cfg.path))
      case None => None
      case Some(amounts) =>
        if |amounts| != |cfg.path| then None else Some(QuotedRoute(keccak, cfg, req, minimum, amounts))
  }

  function Collect(keccak: Bytes -> Word, out: AmountsOut, configs: seq<V2Config>, req: Request, amount: nat,
                   minimum: nat): seq<Route>
  {
    if configs == [] then []
    else
      var front := Collect(keccak, out, configs[..|configs| - 1], req, amount, minimum);
      match QuoteFor(keccak, out, configs[|configs| - 1], req, amount, minimum)
      case None => front
      case Some(r) => front + [r]
  }

  /** v2QuoteSource.Quotes for a source that was configured without error. */
  function V2Quotes(keccak: Bytes -> Word, out: AmountsOut, configs: seq<V2Config>,
                    req: Request): Result<seq<Route>, Fault>
  {
    if Positive(req.amount).None? then Err(AmountInvalid)
    else if Positive(req.constraints.minimumOutput).None? then Err(MinimumInvalid)
    else
      var routes := Collect(keccak, out, configs, req, Positive(req.amount).value,
                            Positive(req.constraints.minimumOutput).value);
      if routes == [] then Err(QuotesUnavailable) else Ok(routes)
  }

  /** Where a quoted route came from. */
  predicate ComesFrom(keccak: Bytes -> Word, r: Route, cfg: V2Config, req: Request, minimum: nat, amounts: seq<Word>)
  {
    Usable(cfg, req) && |amounts| == |cfg.path| && r == QuotedRoute(keccak, cfg, req, minimum, amounts)
  }

  lemma {:induction false} CollectedFrom(keccak: Bytes -> Word, out: AmountsOut, configs: seq<V2Config>, req: Request,
                                         amount: nat, minimum: nat, r: Route)
    requires r in Collect(keccak, out, configs, req, amount, minimum)
    ensures exists cfg, amounts :: cfg in configs && ComesFrom(keccak, r, cfg, req, minimum, amounts)
  {
    var last := configs[|configs| - 1];
    var quote := QuoteFor(keccak, out, last, req, amount, minimum);
    if quote == Some(r) {
      var amounts := out(last.exchangeRouter, amount % UINT256, Addresses(last.path)).value;
      assert ComesFrom(keccak, r, last, req, minimum, amounts);
    } else {
      CollectedFrom(keccak, out, configs[..|configs| - 1], req, amount, minimum, r);
    }
  }

  /** What the router and the adapter will make of a quoted route's text. */
  predicate Sound(r: Route, req: Request, minimum: nat)
  {
    && IsHexAddress(r.adapter) && IsHexAddress(r.tokenOut)
    && r.validUntil == req.deadline
    && Parse(r.expectedOutput).Some? && 0 <= Parse(r.expectedOutput).value < UINT256
    && DecodeHex(TrimPrefix(r.actionData)).Some?
    && DecodeRoute(DecodeHex(TrimPrefix(r.actionData)).value).Some?
    && var v := DecodeRoute(DecodeHex(TrimPrefix(r.actionData)).value).value;
    && 2 <= |v.path| <= 4
    && v.path[0] == HexToAddress(req.tokenIn) && v.path[|v.path| - 1] == HexToAddress(r.tokenOut)
    && v.amountOutMin == minimum % UINT256 && v.deadline == req.deadline
  }

  lemma CalldataText(data: Bytes)
    ensures DecodeHex(TrimPrefix("0x" + EncodeHex(data))) == Some(data)
  {
    assert TrimPrefix("0x" + EncodeHex(data)) == EncodeHex(data);
    EncodedText(data);
    DecodeInvertsEncode(data);
  }

  lemma CalldataDecodes(path: seq<Address>, minimum: nat, deadline: Uint64)
    requires |path| <= 4
    ensures var text := RouteText(path, minimum, deadline);
      && DecodeHex(TrimPrefix(text)).Some?
      && DecodeRoute(DecodeHex(TrimPrefix(text)).value) == Some(V2Route(path, minimum % UINT256, deadline))
  {
    CalldataText(RouteCalldata(path, minimum, deadline));
    RouteRoundTrip(V2Route(path, minimum % UINT256, deadline));
  }

  lemma QuoteText(keccak: Bytes -> Word, tokenOut: Address, expected: Word)
    ensures IsHexAddress(AddressHex(keccak, tokenOut)) && HexToAddress(AddressHex(keccak, tokenOut)) == tokenOut
    ensures Parse(Format(expected)) == Some(expected)
  {
    AddressHexReadsBack(keccak, tokenOut);
    ParseInvertsFormat(expected);
  }

  /** The adapter decodes a quoted route's calldata to the configured path, the (truncated) minimum and the deadline. */
  lemma QuotedIsSound(keccak: Bytes -> Word, r: Route, cfg: V2Config, req: Request, minimum: nat, amounts: seq<Word>)
    requires ComesFrom(keccak, r, cfg, req, minimum, amounts)
    ensures Sound(r, req, minimum)
    ensures DecodeRoute(DecodeHex(TrimPrefix(r.actionData)).value).value.path == Addresses(cfg.path)
  {
    var path := Addresses(cfg.path);
    CalldataDecodes(path, minimum, req.deadline);
    QuoteText(keccak, path[|path| - 1], amounts[|amounts| - 1]);
  }

  /** Every route the source returns decodes as intended. */
  lemma QuotesAreSound(keccak: Bytes -> Word, out: AmountsOut, configs: seq<V2Config>, req: Request, r: Route)
    requires V2Quotes(keccak, out, configs, req).Ok? && r in V2Quotes(keccak, out, configs, req).value
    ensures Sound(r, req, Positive(req.constraints.minimumOutput).value)
  {
    var amount, minimum := Positive(req.amount).value, Positive(req.constraints.minimumOutput).value;
    CollectedFrom(keccak, out, configs, req, amount, minimum, r);
    var cfg, amounts :| cfg in configs && ComesFrom(keccak, r, cfg, req, minimum, amounts);
    QuotedIsSound(keccak, r, cfg, req, minimum, amounts);
  }

  // ---------------------------------------------------------------- none lost, none invented

  /** A venue's answer about the amount, along the configured path. */
  function Reply(out: AmountsOut, cfg: V2Config, amount: nat): Option<seq<Word>>
  {
    out(cfg.exchangeRouter, amount % UINT256, Addresses(cfg.path))
  }

  /** Readable addresses, and a path of two to four tokens that starts at the request's input token. */
  predicate Fits(cfg: V2Config, req: Request)
  {
    && IsHexAddress(cfg.adapter) && IsHexAddress(cfg.exchangeRouter) && 2 <= |cfg.path| <= 4
    && (forall n :: 0 <= n < |cfg.path| ==> IsHexAddress(cfg.path[n]))
    && HexToAddress(cfg.path[0]) == HexToAddress(req.tokenIn)
  }

  lemma FitsIsUsable(cfg: V2Config, req: Request)
    ensures Fits(cfg, req) <==> Usable(cfg, req)
  {
  }

  /** The configuration fits the request, and its venue answers one number per token of the path. */
  predicate Live(out: AmountsOut, cfg: V2Config, req: Request, amount: nat)
  {
    Fits(cfg, req) && Reply(out, cfg, amount).Some? && |Reply(out, cfg, amount).value| == |cfg.path|
  }

  /** What is left in the end, by the venue's answer. */
  function Yield(out: AmountsOut, cfg: V2Config, req: Request, amount: nat): Word
    requires Live(out, cfg, req, amount)
  {
    Reply(out, cfg, amount).value[|cfg.path| - 1]
  }

  /** The route offers this configuration with that yield, until the request's deadline. */
  predicate Offers(r: Route, out: AmountsOut, cfg: V2Config, req: Request, amount: nat)
    requires Live(out, cfg, req, amount)
  {
    && r.adapter == cfg.adapter && r.risk == cfg.risk && r.validUntil == req.deadline
    && Parse(r.expectedOutput) == Some(Yield(out, cfg, req, amount))
    && IsHexAddress(r.tokenOut) && HexToAddress(r.tokenOut) == HexToAddress(cfg.path[|cfg.path| - 1])
  }

  /** The positions of all live configurations, in order. */
  predicate AllLive(out: AmountsOut, configs: seq<V2Config>, req: Request, amount: nat, at: seq<nat>)
  {
    && (forall i, j :: 0 <= i < j < |at| ==> at[i] < at[j])
    && (forall i :: 0 <= i < |at| ==> at[i] < |configs| && Live(out, configs[at[i]], req, amount))
    && (forall k :: 0 <= k < |configs| && Live(out, configs[k], req, amount) ==> k in at)
  }

  /** One route per position, in order. */
  predicate Listing(out: AmountsOut, configs: seq<V2Config>, req: Request, amount: nat, at: seq<nat>,
                    routes: seq<Route>)
    requires AllLive(out, configs, req, amount, at)
  {
    |routes| == |at| && forall i :: 0 <= i < |at| ==> Offers(routes[i], out, configs[at[i]], req, amount)
  }

  lemma QuoteForLive(keccak: Bytes -> Word, out: AmountsOut, cfg: V2Config, req: Request, amount: nat, minimum: nat)
    ensures QuoteFor(keccak, out, cfg, req, amount, minimum).Some? <==> Live(out, cfg, req, amount)
    ensures Live(out, cfg, req, amount) ==>
      Offers(QuoteFor(keccak, out, cfg, req, amount, minimum).value, out, cfg, req, amount)
  {
    FitsIsUsable(cfg, req);
    if Live(out, cfg, req, amount) {
      QuoteText(keccak, Addresses(cfg.path)[|cfg.path| - 1], Yield(out, cfg, req, amount));
    }
  }

  // The routes some rule yields, in order, and the positions they come from.
  function Kept(rule: V2Config -> Option<Route>, configs: seq<V2Config>): seq<Route>
  {
    if configs == [] then []
    else
      match rule(configs[|configs| - 1])
      case None => Kept(rule, configs[..|configs| - 1])
      case Some(r) => Kept(rule, configs[..|configs| - 1]) + [r]
  }

  predicate Increasing(at: seq<nat>)
  {
    forall i, j :: 0 <= i < j < |at| ==> at[i] < at[j]
  }

  // Each route is what the rule makes of the configuration at its position.
  predicate Sources(rule: V2Config -> Option<Route>, configs: seq<V2Config>, at: seq<nat>, routes: seq<Route>)
  {
    |routes| == |at| && forall i :: 0 <= i < |at| ==> at[i] < |configs| && rule(configs[at[i]]) == Some(routes[i])
  }

  // No position at which the rule yields a route is missing.
  predicate Covers(rule: V2Config -> Option<Route>, configs: seq<V2Config>, at: seq<nat>)
  {
    forall k :: 0 <= k < |configs| && rule(configs[k]).Some? ==> k in at
  }

  lemma CoversNext(rule: V2Config -> Option<Route>, front: seq<V2Config>, cfg: V2Config, at: seq<nat>)
    requires Covers(rule, front, at)
    ensures Covers(rule, front + [cfg], if rule(cfg).Some? then at + [|front|] else at)
  {
    var at' := if rule(cfg).Some? then at + [|front|] else at;
    forall k | 0 <= k < |front| + 1 && rule((front + [cfg])[k]).Some?
      ensures k in at'
    {
      if k < |front| {
        assert k in at;
      } else {
        assert at'[|at|] == k;
      }
    }
  }

  lemma KeptNext(rule: V2Config -> Option<Route>, front: seq<V2Config>, cfg: V2Config)
    ensures Kept(rule, front + [cfg]) == Kept(rule, front) + if rule(cfg).Some? then [rule(cfg).value] else []
  {
    assert (front + [cfg])[..|front|] == front;
  }

  ghost predicate Placed(rule: V2Config -> Option<Route>, configs: seq<V2Config>, at: seq<nat>)
  {
    Increasing(at) && Sources(rule, configs, at, Kept(rule, configs)) && Covers(rule, configs, at)
  }

  lemma PlacedNext(rule: V2Config -> Option<Route>, front: seq<V2Config>, cfg: V2Config, at: seq<nat>,
                   configs: seq<V2Config>)
    returns (next: seq<nat>)
    requires Placed(rule, front, at) && configs == front + [cfg]
    ensures Placed(rule, configs, next)
  {
    KeptNext(rule, front, cfg);
    CoversNext(rule, front, cfg, at);
    SourcesNext(rule, front, cfg, at, Kept(rule, front));
    next := if rule(cfg).Some? then at + [|front|] else at;
    if rule(cfg).None? {
      assert Kept(rule, front) + [] == Kept(rule, front);
    }
  }

  lemma {:induction false} KeptPositions(rule: V2Config -> Option<Route>, configs: seq<V2Config>) returns (at: seq<nat>)
    ensures Placed(rule, configs, at)
  {
    at := [];
    if configs != [] {
      var front := configs[..|configs| - 1];
      var before := KeptPositions(rule, front);
      at := PlacedNext(rule, front, configs[|configs| - 1], before, configs);
    }
  }

  lemma SourcesNext(rule: V2Config -> Option<Route>, front: seq<V2Config>, cfg: V2Config, at: seq<nat>,
                    routes: seq<Route>)
    requires Increasing(at) && Sources(rule, front, at, routes)
    ensures rule(cfg).Some? ==>
      Increasing(at + [|front|]) && Sources(rule, front + [cfg], at + [|front|], routes + [rule(cfg).value])
    ensures Sources(rule, front + [cfg], at, routes)
  {
  }

  function Rule(keccak: Bytes -> Word, out: AmountsOut, req: Request, amount: nat,
                minimum: nat): V2Config -> Option<Route>
  {
    cfg => QuoteFor(keccak, out, cfg, req, amount, minimum)
  }

  lemma {:induction false} CollectKeeps(keccak: Bytes -> Word, out: AmountsOut, configs: seq<V2Config>, req: Request,
                                        amount: nat, minimum: nat)
    ensures Collect(keccak, out, configs, req, amount, minimum)
      == Kept(Rule(keccak, out, req, amount, minimum), configs)
  {
    if configs != [] {
      CollectKeeps(keccak, out, configs[..|configs| - 1], req, amount, minimum);
    }
  }

  lemma CollectLists(keccak: Bytes -> Word, out: AmountsOut, configs: seq<V2Config>, req: Request, amount: nat,
                     minimum: nat)
    returns (at: seq<nat>)
    ensures AllLive(out, configs, req, amount, at)
    ensures Listing(out, configs, req, amount, at, Collect(keccak, out, configs, req, amount, minimum))
  {
    var rule := Rule(keccak, out, req, amount, minimum);
    at := KeptPositions(rule, configs);
    CollectKeeps(keccak, out, configs, req, amount, minimum);
    RuleIsLive(keccak, out, configs, req, amount, minimum);
  }

  lemma RuleIsLive(keccak: Bytes -> Word, out: AmountsOut, configs: seq<V2Config>, req: Request, amount: nat,
                   minimum: nat)
    ensures var rule := Rule(keccak, out, req, amount, minimum);
      forall k :: 0 <= k < |configs| ==> (rule(configs[k]).Some? <==> Live(out, configs[k], req, amount))
    ensures var rule := Rule(keccak, out, req, amount, minimum);
      forall k | 0 <= k < |configs| && Live(out, configs[k], req, amount) ::
        Offers(rule(configs[k]).value, out, configs[k], req, amount)
  {
    forall k | 0 <= k < |configs|
      ensures Rule(keccak, out, req, amount, minimum)(configs[k]).Some? <==> Live(out, configs[k], req, amount)
      ensures Live(out, configs[k], req, amount) ==>
        Offers(Rule(keccak, out, req, amount, minimum)(configs[k]).value, out, configs[k], req, amount)
    {
      QuoteForLive(keccak, out, configs[k], req, amount, minimum);
    }
  }

  /** The source returns one route for every live configuration, in their order and each with its own venue's
      answer, and an error exactly when the numbers are malformed or no configuration is live. */
  lemma QuotesAreComplete(keccak: Bytes -> Word, out: AmountsOut, configs: seq<V2Config>, req: Request)
    returns (at: seq<nat>)
    ensures V2Quotes(keccak, out, configs, req).Ok? <==>
      && Positive(req.amount).Some? && Positive(req.constraints.minimumOutput).Some?
      && exists k :: 0 <= k < |configs| && Live(out, configs[k], req, Positive(req.amount).value)
    ensures V2Quotes(keccak, out, configs, req).Ok? ==>
      var amount := Positive(req.amount).value;
      && AllLive(out, configs, req, amount, at)
      && Listing(out, configs, req, amount, at, V2Quotes(keccak, out, configs, req).value)
  {
    at := [];
    if Positive(req.amount).Some? && Positive(req.constraints.minimumOutput).Some? {
      var amount, minimum := Positive(req.amount).value, Positive(req.constraints.minimumOutput).value;
      at := CollectLists(keccak, out, configs, req, amount, minimum);
      if at != [] {
        assert Live(out, configs[at[0]], req, amount);
      }
    }
  }

  // ---------------------------------------------------------------- as it runs

  class V2QuoteSource {
    const keccak: Bytes -> Word
    const out: AmountsOut
    const routes: seq<V2Config>

    constructor (keccak: Bytes -> Word, out: AmountsOut, routes: seq<V2Config>)
      ensures this.keccak == keccak && this.out == out && this.routes == routes
    {
      this.keccak, this.out, this.routes := keccak, out, routes;
    }

    /** One pass over the configuration, skipping what cannot be quoted. */
    method Quotes(req: Request) returns (r: Result<seq<Route>, Fault>)
      ensures r == V2Quotes(keccak, out, routes, req)
    {
      var amount := Parse(req.amount);
      if amount.None? || amount.value <= 0 {
        return Err(AmountInvalid);
      }
      var minimum := Parse(req.constraints.minimumOutput);
      if minimum.None? || minimum.value <= 0 {
        return Err(MinimumInvalid);
      }
      var result: seq<Route> := [];
      for k := 0 to |routes|
        invariant result == Collect(keccak, out, routes[..k], req, amount.value, minimum.value)
      {
        assert routes[..k + 1][..k] == routes[..k];
        var quote := QuoteOne(routes[k], req, amount.value, minimum.value);
        if quote.None? {
          continue;
        }
        result := result + [quote.value];
      }
      assert routes[..|routes|] == routes;
      if |result| == 0 {
        return Err(QuotesUnavailable);
      }
      r := Ok(result);
    }

    /** One configuration: its own checks, the venue's answer, the packed calldata. */
    method QuoteOne(cfg: V2Config, req: Request, amount: nat, minimum: nat) returns (quote: Option<Route>)
      ensures quote == QuoteFor(keccak, out, cfg, req, amount, minimum)
    {
      if !IsHexAddress(cfg.adapter) || !IsHexAddress(cfg.exchangeRouter) || |cfg.path| < 2 || |cfg.path| > 4 {
        return None;
      }
      var path := ParsePath(cfg.path);
      if path.None? || path.value[0] != HexToAddress(req.tokenIn) {
        return None;
      }
      var amounts := out(cfg.exchangeRouter, amount % UINT256, path.value);
      if amounts.None? || |amounts.value| != |path.value| {
        return None;
      }
      var last := |path.value| - 1;
      var actionData := RouteText(path.value, minimum, req.deadline);
      quote := Some(Route(cfg.adapter, AddressHex(keccak, path.value[last]), Format(amounts.value[last]), cfg.risk,
                          actionData, req.deadline));
    }

    /** Fills the path until an element is no address. */
    method ParsePath(texts: seq<string>) returns (path: Option<seq<Address>>)
      ensures path == if AllAddresses(texts) then Some(Addresses(texts)) else None
    {
      var filled := new Address[|texts|](_ => 0);
      var valid := true;
      var i := 0;
      while i < |texts|
        invariant 0 <= i <= |texts|
        invariant valid ==> forall j :: 0 <= j < i ==> IsHexAddress(texts[j]) && filled[j] == HexToAddress(texts[j])
        invariant !valid ==> !AllAddresses(texts)
      {
        if !IsHexAddress(texts[i]) {
          valid := false;
          break;
        }
        filled[i] := HexToAddress(texts[i]);
        i := i + 1;
      }
      if !valid {
        return None;
      }
      assert filled[..] == Addresses(texts);
      path := Some(filled[..]);
    }
  }
}
