/** Decisions the evaluator signs and the router can never settle, each reached by an honest request: paths that
    end in the zero address, paths that come back to the input token, and a minimum above 256 bits. */
module DeadEnds {
  import opened BestQuote
  import opened Bytes
  import opened ChainReader
  import opened Completeness
  import opened Custody
  import opened CustodyTheorems
  import opened Decimal
  import opened EndToEnd
  import opened Evaluation
  import opened EvaluatorTypes
  import opened Hex
  import opened PolicyCommitment
  import opened Quotes
  import opened RouteChoice
  import opened RouterTypes
  import opened Signing
  import opened Wrappers

  /** The router's two getters have different selectors. */
  predicate Discernible(h: Hasher)
  {
    Selector(h.keccak, "intents(bytes32)") != Selector(h.keccak, "allowedAdapters(address)")
  }

  // A node that answers with this intent and an open allow-list.
  function NodeFor(h: Hasher, id: Word, i: Intent): EthCall
  {
    (_, data) => if data == IntentCalldata(h.keccak, HashHex(id)) then Some(GetterBytes(i)) else Some(Word32(1))
  }

  lemma NodeAnswers(h: Hasher, id: Word, i: Intent, router: string, adapter: string)
    requires Discernible(h) && IsHexAddress(adapter)
    ensures NodeFor(h, id, i)(router, IntentCalldata(h.keccak, HashHex(id))) == Some(GetterBytes(i))
    ensures ReadAllowed(h.keccak, NodeFor(h, id, i), router, adapter) == Ok(true)
  {
    var x, y := IntentCalldata(h.keccak, HashHex(id)), AllowedCalldata(h.keccak, adapter);
    assert x[..4] == Selector(h.keccak, "intents(bytes32)") && y[..4] == Selector(h.keccak, "allowedAdapters(address)");
    AllowedRoundTrip(h.keccak, NodeFor(h, id, i), router, adapter, true);
  }

  /** An evaluation of a policy's request: everything is ready, the deadline is the expiry, the node is honest. */
  function Asked(h: Hasher, p: Policy, id: Word, i: Intent, source: QuoteSource, key: Key): World
    requires Writable(p)
  {
    World(0, true, Ok(Restated(h, p, id, p.expiry)), Some(Format(p.chainId)), NodeFor(h, id, i), source, Some(key))
  }

  // ---------------------------------------------------------------- configured paths that end badly

  /** One configured route along these tokens, at a venue that quotes whatever is asked. */
  function AlongPath(h: Hasher, p: Policy, path: seq<Address>): QuoteSource
    requires p.allowedAdapters != []
  {
    V2Source(true, (_, _, hops) => Some(seq(|hops|, _ => UINT256 - 1)),
             [V2Config(AddressHex(h.keccak, p.allowedAdapters[0]), AddressHex(h.keccak, 0),
                       AdapterTexts(h.keccak, path), 0)])
  }

  // The route that configuration yields.
  function PathQuote(h: Hasher, p: Policy, path: seq<Address>): Route
    requires Writable(p) && 2 <= |path| <= 4 && p.minimumOutput >= 0
  {
    Route(AddressHex(h.keccak, p.allowedAdapters[0]), AddressHex(h.keccak, path[|path| - 1]), Format(UINT256 - 1), 0,
          "0x" + EncodeHex(RouteCalldata(path, p.minimumOutput, p.expiry)), p.expiry)
  }

  // One configuration, one quote.
  lemma SingleQuote(keccak: Bytes -> Word, out: AmountsOut, cfg: V2Config, req: Request, amount: nat, minimum: nat,
                    r: Route)
    requires QuoteFor(keccak, out, cfg, req, amount, minimum) == Some(r)
    ensures Collect(keccak, out, [cfg], req, amount, minimum) == [r]
  {
    assert [cfg][..0] == [];
    assert Collect(keccak, out, [cfg][..0], req, amount, minimum) == [];
    assert [] + [r] == [r];
  }

  lemma PathUsable(h: Hasher, p: Policy, id: Word, path: seq<Address>)
    requires Writable(p) && 2 <= |path| <= 4 && path[0] == p.tokenIn
    ensures Usable(AlongPath(h, p, path).configs[0], Restated(h, p, id, p.expiry))
    ensures Addresses(AlongPath(h, p, path).configs[0].path) == path
  {
    AdaptersRestated(h.keccak, path);
    AddressHexReadsBack(h.keccak, p.allowedAdapters[0]);
    AddressHexReadsBack(h.keccak, 0);
    AddressHexReadsBack(h.keccak, p.tokenIn);
  }

  lemma RouteIsPathQuote(h: Hasher, p: Policy, cfg: V2Config, req: Request, path: seq<Address>, amounts: seq<Word>)
    requires Writable(p) && 2 <= |path| <= 4 && |amounts| == |cfg.path| == |path| && Addresses(cfg.path) == path
    requires cfg.adapter == AddressHex(h.keccak, p.allowedAdapters[0]) && cfg.risk == 0 && req.deadline == p.expiry
    requires amounts[|amounts| - 1] == UINT256 - 1
    ensures QuotedRoute(h.keccak, cfg, req, p.minimumOutput, amounts) == PathQuote(h, p, path)
  {
  }

  // The venue answers every request, with one amount per token.
  lemma VenueAnswers(h: Hasher, p: Policy, path: seq<Address>, router: string, amount: Word)
    returns (amounts: seq<Word>)
    requires p.allowedAdapters != [] && path != []
    ensures AlongPath(h, p, path).out(router, amount, path) == Some(amounts)
    ensures |amounts| == |path| && amounts[|amounts| - 1] == UINT256 - 1
  {
    amounts := seq(|path|, _ => UINT256 - 1);
  }

  lemma QuoteForUsable(keccak: Bytes -> Word, out: AmountsOut, cfg: V2Config, req: Request, amount: Word, minimum: nat,
                       amounts: seq<Word>)
    requires Usable(cfg, req) && |amounts| == |cfg.path|
    requires out(cfg.exchangeRouter, amount, Addresses(cfg.path)) == Some(amounts)
    ensures QuoteFor(keccak, out, cfg, req, amount, minimum) == Some(QuotedRoute(keccak, cfg, req, minimum, amounts))
  {
    SmallMod(amount, UINT256);
  }

  lemma PathQuoteFor(h: Hasher, p: Policy, id: Word, path: seq<Address>)
    requires Acceptable(p) && 2 <= |path| <= 4 && path[0] == p.tokenIn
    ensures var source, req := AlongPath(h, p, path), Restated(h, p, id, p.expiry);
      QuoteFor(h.keccak, source.out, source.configs[0], req, p.amount, p.minimumOutput) == Some(PathQuote(h, p, path))
  {
    var source, req := AlongPath(h, p, path), Restated(h, p, id, p.expiry);
    var cfg := source.configs[0];
    PathUsable(h, p, id, path);
    var amounts := VenueAnswers(h, p, path, cfg.exchangeRouter, p.amount);
    QuoteForUsable(h.keccak, source.out, cfg, req, p.amount, p.minimumOutput, amounts);
    RouteIsPathQuote(h, p, cfg, req, path, amounts);
  }

  lemma PathQuoted(h: Hasher, p: Policy, id: Word, path: seq<Address>)
    requires Acceptable(p) && 2 <= |path| <= 4 && path[0] == p.tokenIn
    ensures var source, req := AlongPath(h, p, path), Restated(h, p, id, p.expiry);
      Collect(h.keccak, source.out, source.configs, req, p.amount, p.minimumOutput) == [PathQuote(h, p, path)]
  {
    var source, req := AlongPath(h, p, path), Restated(h, p, id, p.expiry);
    PathQuoteFor(h, p, id, path);
    SingleQuote(h.keccak, source.out, source.configs[0], req, p.amount, p.minimumOutput, PathQuote(h, p, path));
  }

  // The only route on offer, if it qualifies, is the one chosen.
  lemma OnlyChoice(now: nat, req: Request, r: Route)
    requires RequestFault(now, req).None? && Eligible(req, Positive(req.constraints.minimumOutput).value, r)
    ensures ChooseRoute(now, req, [r]) == Ok(DecisionFor(req, r))
  {
    assert Eligible(req, Positive(req.constraints.minimumOutput).value, [r][0]);
    ChoiceIsEarliestBest(now, req, [r]);
  }

  // The first listed adapter is listed.
  lemma FirstListed(h: Hasher, p: Policy, id: Word)
    requires Writable(p)
    ensures Listed(Restated(h, p, id, p.expiry).constraints.allowedAdapters, AddressHex(h.keccak, p.allowedAdapters[0]))
  {
    assert Restated(h, p, id, p.expiry).constraints.allowedAdapters[0] == AddressHex(h.keccak, p.allowedAdapters[0]);
  }

  lemma PathEligible(h: Hasher, p: Policy, id: Word, path: seq<Address>)
    requires Acceptable(p) && 2 <= |path| <= 4
    ensures Eligible(Restated(h, p, id, p.expiry), p.minimumOutput, PathQuote(h, p, path))
  {
    ParseInvertsFormat(UINT256 - 1);
    FirstListed(h, p, id);
  }

  lemma PathAvailable(h: Hasher, p: Policy, id: Word, path: seq<Address>)
    requires Acceptable(p) && 2 <= |path| <= 4 && path[0] == p.tokenIn
    ensures Available(h, AlongPath(h, p, path), Restated(h, p, id, p.expiry)) == Ok([PathQuote(h, p, path)])
  {
    RestatedNumbers(h, p, id, p.expiry);
    PathQuoted(h, p, id, path);
  }

  lemma PathQuotable(h: Hasher, p: Policy, id: Word, i: Intent, path: seq<Address>, key: Key)
    requires Acceptable(p) && 2 <= |path| <= 4 && path[0] == p.tokenIn
    ensures Quotable(Asked(h, p, id, i, AlongPath(h, p, path), key), Restated(h, p, id, p.expiry), p)
  {
    var source, req := AlongPath(h, p, path), Restated(h, p, id, p.expiry);
    PathQuoteFor(h, p, id, path);
    PathEligible(h, p, id, path);
    QuoteForLive(h.keccak, source.out, source.configs[0], req, p.amount, p.minimumOutput);
    OfferEligible(PathQuote(h, p, path), source.out, source.configs[0], req, p.amount, p.minimumOutput);
  }

  lemma PathChosen(h: Hasher, p: Policy, id: Word, i: Intent, path: seq<Address>, key: Key)
    requires Acceptable(p) && 2 <= |path| <= 4 && path[0] == p.tokenIn
    ensures Choose(h, Asked(h, p, id, i, AlongPath(h, p, path), key), Restated(h, p, id, p.expiry))
      == Ok(DecisionFor(Restated(h, p, id, p.expiry), PathQuote(h, p, path)))
  {
    var req := Restated(h, p, id, p.expiry);
    PathAvailable(h, p, id, path);
    PathEligible(h, p, id, path);
    RestatedNumbers(h, p, id, p.expiry);
    RestatedIsComplete(h, 0, p, id, p.expiry);
    OnlyChoice(0, req, PathQuote(h, p, path));
  }

  /** The node is honest. */
  lemma AskedHonestly(h: Hasher, p: Policy, id: Word, i: Intent, source: QuoteSource, key: Key)
    requires Discernible(h) && Writable(p) && i.status == Funded
    ensures var w, req := Asked(h, p, id, i, source, key), Restated(h, p, id, p.expiry);
      && Answers(h, w, req, i) && HonestRead(h, w, req, i)
      && ReadAllowed(h.keccak, w.call, req.router, AddressHex(h.keccak, p.allowedAdapters[0])) == Ok(true)
  {
    var w, req := Asked(h, p, id, i, source, key), Restated(h, p, id, p.expiry);
    AddressHexReadsBack(h.keccak, p.allowedAdapters[0]);
    NodeAnswers(h, id, i, req.router, AddressHex(h.keccak, p.allowedAdapters[0]));
    assert i.(status := Funded) == i;
    assert Answers(h, w, req, i.(status := Funded));
  }

  lemma PathIsSigned(h: Hasher, p: Policy, id: Word, i: Intent, path: seq<Address>, key: Key)
    requires Discernible(h) && Acceptable(p) && MadeFor(h, p, i) && i.status == Funded && id != 0
    requires 2 <= |path| <= 4 && path[0] == p.tokenIn
    ensures var w, req := Asked(h, p, id, i, AlongPath(h, p, path), key), Restated(h, p, id, p.expiry);
      Evaluate(h, w).Ok? && Chosen(h, w) == DecisionFor(req, PathQuote(h, p, path))
  {
    AskedHonestly(h, p, id, i, AlongPath(h, p, path), key);
    PathChosen(h, p, id, i, path, key);
    PathQuotable(h, p, id, i, path, key);
    HonestEvaluationSucceeds(h, Asked(h, p, id, i, AlongPath(h, p, path), key), p, id, p.expiry, i);
  }

  /** For every acceptable policy and every path that starts at its token: the evaluation of the policy's own
      request, over an honest node that reports its funded intent, signs for that path, wherever it ends. */
  lemma AnyPathIsSigned(h: Hasher, p: Policy, id: Word, i: Intent, path: seq<Address>, key: Key)
    requires Discernible(h) && Acceptable(p) && MadeFor(h, p, i) && i.status == Funded && id != 0
    requires 2 <= |path| <= 4 && path[0] == p.tokenIn
    ensures var w := Asked(h, p, id, i, AlongPath(h, p, path), key);
      && Evaluate(h, w).Ok? && HonestRead(h, w, w.plaintext.value, i)
      && HexToAddress(Chosen(h, w).adapter) == p.allowedAdapters[0]
      && HexToAddress(Chosen(h, w).tokenIn) == p.tokenIn
      && HexToAddress(Chosen(h, w).tokenOut) == path[|path| - 1]
  {
    AskedHonestly(h, p, id, i, AlongPath(h, p, path), key);
    PathIsSigned(h, p, id, i, path, key);
    AddressHexReadsBack(h.keccak, p.allowedAdapters[0]);
    AddressHexReadsBack(h.keccak, p.tokenIn);
    AddressHexReadsBack(h.keccak, path[|path| - 1]);
  }

  /** A path that comes back to the input token, or ends in the zero address. */
  predicate DeadEnd(p: Policy, path: seq<Address>)
  {
    2 <= |path| <= 4 && path[0] == p.tokenIn && (path[|path| - 1] == p.tokenIn || path[|path| - 1] == 0)
  }

  /** Such a decision is signed for the router's own V2 adapter, and the authorization it stands for is never
      executed: in any reachable state, at any time, with any signature and whatever tokens and venue do. */
  lemma DeadEndNeverSettles(h: Hasher, c: Deployment, p: Policy, id: Word, i: Intent, path: seq<Address>, key: Key)
    returns (a: RouteAuthorization, data: Bytes)
    requires Attuned(h, c) && Discernible(h)
    requires Acceptable(p) && MadeFor(h, p, i) && i.status == Funded && id != 0
    requires p.router == c.self && p.chainId == c.chainId && p.allowedAdapters[0] == c.adapter && DeadEnd(p, path)
    ensures Signs(h, Asked(h, p, id, i, AlongPath(h, p, path), key), AuthorizationDigest(c, a))
    ensures Decides(h, Asked(h, p, id, i, AlongPath(h, p, path), key), a, data) && a.actionHash == c.keccak(data)
    ensures forall now: nat, s: State, signature: Bytes, x: Externals | Reachable(c, s) ::
        ExecuteStep(c, now, s, a, signature, data, x).Revert?
  {
    var w := Asked(h, p, id, i, AlongPath(h, p, path), key);
    AnyPathIsSigned(h, p, id, i, path, key);
    RestatedIsAddressed(h, c, p, id, p.expiry);
    V2DecisionsAgree(h, c, w);
    a, data := AuthorizationOf(h, w.plaintext.value, Chosen(h, w)), ActionBytes(Chosen(h, w));
    forall now: nat, s: State, signature: Bytes, x: Externals | Reachable(c, s)
      ensures ExecuteStep(c, now, s, a, signature, data, x).Revert?
    {
      ReachableInv(c, s);
      GuardWantsOutput(c, now, s, a, signature, data);
      AdmittedSettles(c, now, s, a, signature, data, x);
    }
  }

  lemma GuardWantsOutput(c: Deployment, now: nat, s: State, a: RouteAuthorization, signature: Bytes, data: Bytes)
    ensures ExecuteGuard(c, now, s, a, signature, data).None? ==> a.tokenOut != 0
  {
  }

  // ---------------------------------------------------------------- numbers above 256 bits

  // A static quote that offers just the minimum.
  function StaticQuote(h: Hasher, p: Policy, tokenOut: Address): Route
    requires Writable(p)
  {
    Route(AddressHex(h.keccak, p.allowedAdapters[0]), AddressHex(h.keccak, tokenOut), Format(p.minimumOutput), 0, "0x",
          p.expiry)
  }

  function Statically(h: Hasher, p: Policy, tokenOut: Address): QuoteSource
    requires Writable(p)
  {
    StaticQuotes(Some([StaticQuote(h, p, tokenOut)]))
  }

  lemma StaticEligible(h: Hasher, p: Policy, id: Word, tokenOut: Address)
    requires Writable(p)
    ensures Eligible(Restated(h, p, id, p.expiry), p.minimumOutput, StaticQuote(h, p, tokenOut))
  {
    ParseInvertsFormat(p.minimumOutput);
    FirstListed(h, p, id);
  }

  lemma StaticChosen(h: Hasher, p: Policy, id: Word, i: Intent, tokenOut: Address, key: Key)
    requires Writable(p)
    ensures Choose(h, Asked(h, p, id, i, Statically(h, p, tokenOut), key), Restated(h, p, id, p.expiry))
      == Ok(DecisionFor(Restated(h, p, id, p.expiry), StaticQuote(h, p, tokenOut)))
  {
    StaticEligible(h, p, id, tokenOut);
    RestatedNumbers(h, p, id, p.expiry);
    RestatedIsComplete(h, 0, p, id, p.expiry);
    OnlyChoice(0, Restated(h, p, id, p.expiry), StaticQuote(h, p, tokenOut));
  }

  lemma StaticParts(h: Hasher, p: Policy, tokenOut: Address)
    requires Writable(p)
    ensures var r := StaticQuote(h, p, tokenOut);
      IsHexAddress(r.adapter) && IsHexAddress(r.tokenOut) && DecodeHex(TrimPrefix(r.actionData)).Some?
  {
    AddressHexReadsBack(h.keccak, p.allowedAdapters[0]);
    AddressHexReadsBack(h.keccak, tokenOut);
    assert TrimPrefix("0x") == "";
  }

  lemma StaticCanBeSigned(h: Hasher, p: Policy, id: Word, tokenOut: Address)
    requires Writable(p) && id != 0
    ensures SignFault(Restated(h, p, id, p.expiry),
                      DecisionFor(Restated(h, p, id, p.expiry), StaticQuote(h, p, tokenOut))).None?
  {
    RestatedDenotes(h, p, id, p.expiry);
    RestatedAddresses(h, p, id, p.expiry);
    HashText(id);
    StaticParts(h, p, tokenOut);
    PartsCanBeSigned(Restated(h, p, id, p.expiry), StaticQuote(h, p, tokenOut));
  }

  lemma StaticIsSigned(h: Hasher, p: Policy, id: Word, i: Intent, tokenOut: Address, key: Key)
    requires Discernible(h) && Writable(p) && CommittedTo(h, p, id, p.expiry, i) && id != 0
    ensures var w, req := Asked(h, p, id, i, Statically(h, p, tokenOut), key), Restated(h, p, id, p.expiry);
      Evaluate(h, w).Ok? && Chosen(h, w) == DecisionFor(req, StaticQuote(h, p, tokenOut))
        && SignFault(req, Chosen(h, w)).None?
  {
    var w, req := Asked(h, p, id, i, Statically(h, p, tokenOut), key), Restated(h, p, id, p.expiry);
    AskedHonestly(h, p, id, i, w.source, key);
    CommittedIsVerified(h, w, p, id, p.expiry, i);
    StaticChosen(h, p, id, i, tokenOut, key);
    StaticCanBeSigned(h, p, id, tokenOut);
    SucceedsWhenSigned(h, w, req);
  }

  /** For every policy whose minimum does not fit 256 bits, and the funded intent that stores its hash: one
      static quote is enough for a signature over a struct longer than any the router hashes. No router
      can be shown an authorization for it, unless two named preimages collide. */
  lemma WideMinimumIsSigned(h: Hasher, p: Policy, id: Word, i: Intent, tokenOut: Address, key: Key)
    requires Discernible(h) && Writable(p) && p.minimumOutput >= UINT256 && CommittedTo(h, p, id, p.expiry, i)
      && id != 0
    ensures var w := Asked(h, p, id, i, Statically(h, p, tokenOut), key);
      && Evaluate(h, w).Ok? && SignFault(w.plaintext.value, Chosen(h, w)).None?
      && !Narrow(DecisionNumbers(h, w.plaintext.value, Chosen(h, w)))
      && forall c, a | Attuned(h, c) && SignedDigest(h, w) == AuthorizationDigest(c, a) :: Unsettleable(h, c, w, a)
  {
    var w, req := Asked(h, p, id, i, Statically(h, p, tokenOut), key), Restated(h, p, id, p.expiry);
    StaticIsSigned(h, p, id, i, tokenOut, key);
    ParseInvertsFormat(p.minimumOutput);
    WideIsNotNarrow(h, req, Chosen(h, w));
    forall c, a | Attuned(h, c) && SignedDigest(h, w) == AuthorizationDigest(c, a)
      ensures Unsettleable(h, c, w, a)
    {
      WideBindsNothing(h, c, req, Chosen(h, w), a);
    }
  }

  lemma WideNumber(ns: seq<nat>, k: nat)
    requires k < |ns| && ns[k] >= UINT256
    ensures !Narrow(ns)
  {
  }

  lemma MinimumIsTenth(t: Word, id: Word, owner: Address, tokenIn: Address, amount: nat, commitment: Word,
                       adapter: Address, tokenOut: Address, action: Word, minimum: nat, nonce: nat, deadline: nat)
    ensures StructNumbers(t, id, owner, tokenIn, amount, commitment, adapter, tokenOut, action, minimum, nonce,
                          deadline)[9] == minimum
  {
  }

  lemma WideIsNotNarrow(h: Hasher, req: Request, d: Decision)
    requires SignFault(req, d).None? && Parse(d.minimumOutput).value >= UINT256
    ensures !Narrow(DecisionNumbers(h, req, d))
  {
    MinimumIsTenth(h.routeType, HexToHash(d.intentID), HexToAddress(d.owner), HexToAddress(d.tokenIn),
                   Positive(d.maximumAmount).value, h.keccak(PolicyPreimage(h, req)), HexToAddress(d.adapter),
                   HexToAddress(d.tokenOut), h.keccak(ActionBytes(d)), Parse(d.minimumOutput).value, d.intentNonce,
                   d.deadline);
    WideNumber(DecisionNumbers(h, req, d), 9);
  }

  lemma WideBindsNothing(h: Hasher, c: Deployment, req: Request, d: Decision, a: RouteAuthorization)
    requires SignFault(req, d).None? && Parse(d.minimumOutput).value >= UINT256
    requires Attuned(h, c) && Digest(h, req, d) == AuthorizationDigest(c, a)
    ensures DigestCollision(h, c, req, d, a)
  {
    DigestBinds(h, c, req, d, a);
  }

  ghost predicate Unsettleable(h: Hasher, c: Deployment, w: World, a: RouteAuthorization)
    requires Evaluate(h, w).Ok? && SignFault(w.plaintext.value, Chosen(h, w)).None?
  {
    DigestCollision(h, c, w.plaintext.value, Chosen(h, w), a)
  }
}
