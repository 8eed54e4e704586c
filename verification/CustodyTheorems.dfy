/** What the invariant means: solvency, refunds, conservation, once-only settlement, nonces and pausing,
    over every history and inside every callback. */
module CustodyTheorems {
  import opened Bytes
  import opened Custody
  import opened CustodyInvariant
  import opened CustodyLog
  import opened InFlight
  import opened Interference
  import opened MapSums
  import opened RouterTypes
  import opened Settlement

  /** A state some history leads to. */
  ghost predicate Reachable(d: Deployment, s: State)
  {
    exists s0, owner, signer, txs :: Initial(d, s0, owner, signer) && s == History(d, s0, txs)
  }

  lemma ReachableInv(d: Deployment, s: State)
    requires Reachable(d, s)
    ensures Inv(d, s)
  {
    var s0, owner, signer, txs :| Initial(d, s0, owner, signer) && s == History(d, s0, txs);
    InitialInv(d, s0, owner, signer);
    HistoryKeeps(d, s0, txs);
  }

  // ---------------------------------------------------------------- solvency

  /** In every reachable state the router can pay every owner of a funded intent, in every token. */
  lemma AlwaysSolvent(d: Deployment, s: State, token: Address)
    requires Reachable(d, s)
    ensures s.ledger.Balance(token, d.self) >= FundedSum(s.intents, token)
  {
    ReachableInv(d, s);
    assert Surplus(d, s, token) >= 0;
  }

  /** What the router holds beyond its debts, donations included, can never be taken out by anyone. */
  lemma SurplusNeverSpent(d: Deployment, s: State, txs: seq<Transaction>, token: Address)
    requires Reachable(d, s)
    ensures Surplus(d, History(d, s, txs), token) >= Surplus(d, s, token)
  {
    ReachableInv(d, s);
    HistoryKeeps(d, s, txs);
  }

  /** What the adapter finds when it is called: a locked router, short of the amount and of nothing else. */
  lemma HandedSound(d: Deployment, now: nat, s: State, a: RouteAuthorization, x: Externals)
    requires Inv(d, s) && s.Intent(a.intentId).status == Funded && HandOver(d, now, s, a, x).Done?
    ensures var i, handed := s.intents[a.intentId], HandOver(d, now, s, a, x).state;
      && handed.locked && !handed.adapterLocked
      && Grantless(handed.ledger, d.self) && Grantless(handed.ledger, d.adapter) && Catalogued(d, handed)
      && Extended(s.intents, handed.intents)
      && forall token: Address :: handed.ledger.Balance(token, d.self)
           >= s.ledger.Balance(token, d.self) - if token == i.tokenIn then i.amount else 0
  {
    var i, locked := s.intents[a.intentId], s.(locked := true);
    var move := Move(i.tokenIn, d.self, a.adapter, i.amount);
    SameCatalogue(d, s, locked);
    TokenCallDrifts(d, now, locked, i.tokenIn, d.self, a.adapter, i.amount, x.input);
    SingleMove(d, move);
    forall token: Address
      ensures HandOver(d, now, s, a, x).state.ledger.Balance(token, d.self)
        >= s.ledger.Balance(token, d.self) - if token == i.tokenIn then i.amount else 0
    {
      assert HandOver(d, now, s, a, x).state.ledger.Balance(token, d.self)
        >= locked.ledger.Balance(token, d.self) + Net(d, [move], token);
    }
  }

  /** Where an arithmetic panic could come from in an execution. */
  lemma ArithmeticSources(d: Deployment, now: nat, s: State, a: RouteAuthorization, signature: Bytes, data: Bytes,
                          x: Externals)
    requires ExecuteStep(d, now, s, a, signature, data, x) == Revert(Arithmetic) && Sturdy(d, s, a.intentId)
    ensures s.Intent(a.intentId).status == Funded && HandOver(d, now, s, a, x).Done?
    ensures Returned(d, now, s, a, data, x) == AdapterRevert(Arithmetic) ||
            (&& Returned(d, now, s, a, data, x).AdapterDone?
             && !(0 <= Baseline(d, s, a) <= Returned(d, now, s, a, data, x).state.ledger.Balance(a.tokenOut, d.self)))
  {
    PastGuard(d, now, s, a, signature, data, x);
    ProceedUnfolds(d, now, s, a, data, x);
    if HandOver(d, now, s, a, x).Done? && Returned(d, now, s, a, data, x).AdapterDone? {
      var back := Returned(d, now, s, a, data, x);
      FinishPays(d, now, s, a, back.state, back.tokenOut, x.output);
      PayoutNeverPanics(d, now, back.state, a, x.output);
    }
  }

  lemma PayoutNeverPanics(d: Deployment, now: nat, back: State, a: RouteAuthorization, output: Hook)
    ensures forall amountOut: nat :: Payout(d, now, back, a, amountOut, output) != Revert(Arithmetic)
  {
  }

  lemma V2NeverUnderflows(d: Deployment, now: nat, s: State, tokenIn: Address, amountIn: Word, data: Bytes,
                          callee: Callee)
    requires s.locked && d.self != d.adapter
    requires Grantless(s.ledger, d.self) && Grantless(s.ledger, d.adapter) && Catalogued(d, s)
    ensures V2Step(d, now, s, d.self, tokenIn, amountIn, data, callee) != AdapterRevert(Arithmetic)
  {
    V2Trades(d, now, s, tokenIn, amountIn, data, callee);
    var guard := V2Guard(d, now, s, d.self, tokenIn, data);
    if guard.Ok? {
      var r := guard.value;
      TradeUnfolds(d, now, s, tokenIn, amountIn, r.path[|r.path| - 1], r.amountOutMin, callee);
      SwapDrifts(d, now, s, tokenIn, amountIn, callee);
    }
  }

  /** None of the checked subtractions around an execution, in the router or the V2 adapter, ever underflows. */
  lemma NeverUnderflows(d: Deployment, now: nat, s: State, a: RouteAuthorization, signature: Bytes, data: Bytes,
                        x: Externals)
    requires Inv(d, s)
    ensures ExecuteStep(d, now, s, a, signature, data, x) != Revert(Arithmetic)
  {
    if ExecuteStep(d, now, s, a, signature, data, x) == Revert(Arithmetic) {
      assert a.intentId in s.intents;
      ArithmeticSources(d, now, s, a, signature, data, x);
      var i, handed := s.intents[a.intentId], HandOver(d, now, s, a, x).state;
      if Returned(d, now, s, a, data, x).AdapterDone? {
        assert Surplus(d, s, i.tokenIn) >= 0;
        MeasuresSafely(d, now, s, a, data, x);
      } else {
        HandedSound(d, now, s, a, x);
        V2NeverUnderflows(d, now, handed, i.tokenIn, i.amount, data, x.callee);
      }
    }
  }

  // ---------------------------------------------------------------- refunds

  /** In every reachable state, paused or not, expired or not, and whatever became of signers and
      adapters, the owner of a funded intent gets exactly its amount back unless the token itself refuses. */
  lemma RefundAlwaysAvailable(d: Deployment, now: nat, s: State, id: Word, hook: Hook)
    requires Reachable(d, s) && id in s.intents && s.intents[id].status == Funded
    ensures var i := s.intents[id];
      var outcome := Attempt(d, now, s, CancelIntent(i.owner, id, hook));
      && (outcome.Done? <==> !hook.reverts)
      && (outcome.Done? ==>
            && outcome.state.Intent(id) == i.(status := Cancelled)
            && RouterMoves(d, outcome.state.events) == RouterMoves(d, s.events)
            + [Move(i.tokenIn, d.self, i.owner, i.amount)])
  {
    ReachableInv(d, s);
    OwnerCancels(d, now, s, id, hook);
    RefundSucceeds(d, now, s, id, hook);
    if !hook.reverts {
      RefundMoves(d, now, s, id, hook);
    }
  }

  lemma OwnerCancels(d: Deployment, now: nat, s: State, id: Word, hook: Hook)
    requires Catalogued(d, s) && id in s.intents
    ensures Attempt(d, now, s, CancelIntent(s.intents[id].owner, id, hook))
      == CancelStep(d, now, s, s.intents[id].owner, id, hook)
  {
    assert Recorded(d, s, id);
  }

  lemma RefundMoves(d: Deployment, now: nat, s: State, id: Word, hook: Hook)
    requires Inv(d, s) && id in s.intents && s.intents[id].status == Funded
    requires CancelStep(d, now, s, s.intents[id].owner, id, hook).Done?
    ensures var i, s' := s.intents[id], CancelStep(d, now, s, s.intents[id].owner, id, hook).state;
      && s'.Intent(id) == i.(status := Cancelled)
      && RouterMoves(d, s'.events) == RouterMoves(d, s.events) + [Move(i.tokenIn, d.self, i.owner, i.amount)]
  {
    CancelSettles(d, now, s, s.intents[id].owner, id, hook);
    assert Recorded(d, s, id);
  }

  lemma RefundSucceeds(d: Deployment, now: nat, s: State, id: Word, hook: Hook)
    requires Inv(d, s) && id in s.intents && s.intents[id].status == Funded
    ensures CancelStep(d, now, s, s.intents[id].owner, id, hook).Done? <==> !hook.reverts
  {
    var i := s.intents[id];
    var m := s.(locked := true).SetStatus(id, Cancelled);
    SolventWhileCancelling(d, now, s, id, hook, hook.before);
    assert Surplus(d, s, i.tokenIn) >= 0;
    assert Recorded(d, s, id);
    assert Surplus(d, Run(d, now, m, hook.before), i.tokenIn) >= Surplus(d, s, i.tokenIn)
      + Bonus(i.tokenIn, i.amount, i.tokenIn);
  }

  /** With a token that runs no code of its own, the refund moves the balances by exactly the amount. */
  lemma RefundIsExact(d: Deployment, now: nat, s: State, id: Word)
    requires Reachable(d, s) && id in s.intents && s.intents[id].status == Funded
    ensures var i := s.intents[id];
      var s' := Exec(d, now, s, CancelIntent(i.owner, id, Hook([], [], false)));
      && s'.Intent(id).status == Cancelled
      && s'.ledger.Balance(i.tokenIn, i.owner) == s.ledger.Balance(i.tokenIn, i.owner) + i.amount
      && s'.ledger.Balance(i.tokenIn, d.self) == s.ledger.Balance(i.tokenIn, d.self) - i.amount
  {
    RefundAlwaysAvailable(d, now, s, id, Hook([], [], false));
    ReachableInv(d, s);
    var i := s.intents[id];
    assert Recorded(d, s, id);
    var m := s.(locked := true).SetStatus(id, Cancelled);
    assert CallToken(d, now, m, d.self, i.tokenIn, d.self, i.owner, i.amount, Hook([], [], false))
        == MoveUnits(m, d.self, i.tokenIn, d.self, i.owner, i.amount);
    assert CancelStep(d, now, s, i.owner, id, Hook([], [], false)).Done?;
  }

  // ---------------------------------------------------------------- conservation, once only

  function Deposited(story: seq<Event>): nat
  {
    if story == [] then 0
    else Deposited(story[1..]) + if story[0].IntentFunded? then story[0].amount else 0
  }

  function Refunded(story: seq<Event>): nat
  {
    if story == [] then 0
    else Refunded(story[1..]) + if story[0].IntentCancelled? then story[0].refunded else 0
  }

  function HandedOver(story: seq<Event>): nat
  {
    if story == [] then 0
    else HandedOver(story[1..]) + if story[0].IntentExecuted? then story[0].amountIn else 0
  }

  predicate Leaves(e: Event)
  {
    e.IntentExecuted? || (e.IntentCancelled? && e.refunded > 0)
  }

  /** How often an intent's deposit left: refunds of a positive amount, and executions. */
  function Outflows(story: seq<Event>): nat
  {
    if story == [] then 0
    else Outflows(story[1..]) + if Leaves(story[0]) then 1 else 0
  }

  lemma Story2(x: Event, y: Event)
    ensures Deposited([x, y]) == Deposited([x]) + Deposited([y])
    ensures Refunded([x, y]) == Refunded([x]) + Refunded([y])
    ensures HandedOver([x, y]) == HandedOver([x]) + HandedOver([y])
    ensures Outflows([x, y]) == Outflows([x]) + Outflows([y])
  {
    assert [x, y][1..] == [y];
  }

  lemma Story3(x: Event, y: Event, z: Event)
    ensures Deposited([x, y, z]) == Deposited([x]) + Deposited([y]) + Deposited([z])
    ensures Refunded([x, y, z]) == Refunded([x]) + Refunded([y]) + Refunded([z])
    ensures HandedOver([x, y, z]) == HandedOver([x]) + HandedOver([y]) + HandedOver([z])
    ensures Outflows([x, y, z]) == Outflows([x]) + Outflows([y]) + Outflows([z])
  {
    assert [x, y, z][1..] == [y, z];
    Story2(y, z);
  }

  /** One intent's books: what came in is still there, went back, or went to an adapter; at most once. */
  lemma IntentBalances(intents: map<Word, Intent>, id: Word, story: seq<Event>)
    requires id in intents && Fits(intents, id, story)
    ensures var i := intents[id];
      && Deposited(story) == (if i.status == Funded then i.amount else 0) + Refunded(story) + HandedOver(story)
      && Outflows(story) <= 1
      && (Refunded(story) == 0 || HandedOver(story) == 0)
  {
    if |story| == 2 {
      Story2(story[0], story[1]);
      assert story == [story[0], story[1]];
    } else if |story| == 3 {
      Story3(story[0], story[1], story[2]);
      assert story == [story[0], story[1], story[2]];
    }
  }

  /** Every intent's deposit leaves the router at most once, by a refund or by an execution, never both. */
  lemma SettledOnce(d: Deployment, s: State, id: Word)
    requires Reachable(d, s)
    ensures Outflows(Story(s.events, id)) <= 1
    ensures Refunded(Story(s.events, id)) == 0 || HandedOver(Story(s.events, id)) == 0
  {
    ReachableInv(d, s);
    assert Fits(s.intents, id, Story(s.events, id));
    if id in s.intents {
      IntentBalances(s.intents, id, Story(s.events, id));
    }
  }

  // Per intent of one token: what came in, went back, went to adapters, is due.
  function Deposits(s: State, token: Address): map<Word, nat>
  {
    map id | id in s.intents && s.intents[id].tokenIn == token :: Deposited(Story(s.events, id))
  }

  function Refunds(s: State, token: Address): map<Word, nat>
  {
    map id | id in s.intents && s.intents[id].tokenIn == token :: Refunded(Story(s.events, id))
  }

  function HandOvers(s: State, token: Address): map<Word, nat>
  {
    map id | id in s.intents && s.intents[id].tokenIn == token :: HandedOver(Story(s.events, id))
  }

  function Dues(s: State, token: Address): map<Word, nat>
  {
    map id | id in s.intents && s.intents[id].tokenIn == token :: Due(s.intents[id], token)
  }

  lemma StoryBalances(s: State, token: Address, id: Word)
    requires Narrated(s) && id in s.intents && s.intents[id].tokenIn == token
    ensures Deposits(s, token)[id] == Dues(s, token)[id] + Refunds(s, token)[id] + HandOvers(s, token)[id]
  {
    assert Fits(s.intents, id, Story(s.events, id));
    IntentBalances(s.intents, id, Story(s.events, id));
  }

  /** Custody is conserved in every token: all that was ever funded is funded still, was refunded, or was
      handed to adapters. */
  lemma CustodyConserved(d: Deployment, s: State, token: Address)
    requires Reachable(d, s)
    ensures Sum(Deposits(s, token)) == FundedSum(s.intents, token) + Sum(Refunds(s, token)) + Sum(HandOvers(s, token))
  {
    ReachableInv(d, s);
    var out := map id | id in Dues(s, token) :: Refunds(s, token)[id] + HandOvers(s, token)[id];
    forall id | id in Dues(s, token)
      ensures Deposits(s, token)[id] == Dues(s, token)[id] + out[id]
    {
      StoryBalances(s, token, id);
    }
    SumAdds(Refunds(s, token), HandOvers(s, token), out);
    SumAdds(Dues(s, token), out, Deposits(s, token));
    SumDropsZeros(Dues(s, token), FundedAmounts(s.intents, token));
  }

  /** The complete list of token movements the router ever ordered or suffered is, in order, what its
      announcements say: pulls of deposits, refunds, hand-overs and payouts. Nobody else debits it. */
  lemma MovementsAreAnnounced(d: Deployment, s: State)
    requires Reachable(d, s)
    ensures RouterMoves(d, s.events) == ClaimedMoves(d, s.intents, Announcements(s.events))
    ensures forall token: Address, spender: Address :: s.ledger.Allowance(token, d.self, spender) == 0
  {
    ReachableInv(d, s);
    forall token: Address, spender: Address
      ensures s.ledger.Allowance(token, d.self, spender) == 0
    {
      assert NoGrant(s.ledger, token, d.self);
    }
  }

  // ---------------------------------------------------------------- lifecycle, pausing, nonces

  /** Over any further history: owner, token, amount, hash, expiry and nonce of an intent stay, its status
      only moves forward, and Executed and Cancelled are final. */
  lemma LifecycleIsOneWay(d: Deployment, s: State, txs: seq<Transaction>, id: Word)
    requires Reachable(d, s) && id in s.intents
    ensures var s' := History(d, s, txs);
      && id in s'.intents && SameIntent(s.intents[id], s'.intents[id])
      && Forward(s.intents[id].status, s'.intents[id].status)
      && (s.intents[id].status == Executed || s.intents[id].status == Cancelled ==> s'.intents[id] == s.intents[id])
  {
    ReachableInv(d, s);
    HistoryKeeps(d, s, txs);
    assert Evolves(s.intents, History(d, s, txs).intents, id);
  }

  /** An intent once executed or cancelled is never let in again: after any further history, at any time, the
      guard turns away every authorization for it, with any signature and any calldata. */
  lemma NeverAdmittedAgain(d: Deployment, s: State, txs: seq<Transaction>, now: nat, a: RouteAuthorization,
                           signature: Bytes, data: Bytes)
    requires Reachable(d, s) && a.intentId in s.intents
    requires s.intents[a.intentId].status == Executed || s.intents[a.intentId].status == Cancelled
    ensures ExecuteGuard(d, now, History(d, s, txs), a, signature, data).Some?
  {
    LifecycleIsOneWay(d, s, txs, a.intentId);
  }

  /** So what was executed is executed once: presented again, after whatever happened since, it fails. */
  lemma ReplayRefused(d: Deployment, now: nat, s: State, a: RouteAuthorization, signature: Bytes, data: Bytes,
                      x: Externals, txs: seq<Transaction>, later: nat, signature': Bytes, data': Bytes, x': Externals)
    requires Reachable(d, s) && ExecuteStep(d, now, s, a, signature, data, x).Done?
    ensures ExecuteStep(d, later, History(d, ExecuteStep(d, now, s, a, signature, data, x).state, txs), a, signature',
                        data', x').Revert?
  {
    ReachableInv(d, s);
    var s' := ExecuteStep(d, now, s, a, signature, data, x).state;
    ExecuteSettles(d, now, s, a, signature, data, x);
    ExecuteKeeps(d, now, s, a, signature, data, x);
    HistoryKeeps(d, s', txs);
    assert Evolves(s'.intents, History(d, s', txs).intents, a.intentId);
    PastGuard(d, later, History(d, s', txs), a, signature', data', x');
  }

  /** An entry-point call that begins while the router is paused, from outside or from a callback, can
      change a stored intent only by cancelling it. */
  lemma PausedOnlyCancels(d: Deployment, now: nat, s: State, c: Call, id: Word)
    requires s.paused && !c.Frame? && id in s.intents
    requires Inv(d, s) || (s.locked && Catalogued(d, s))
    ensures var s' := Exec(d, now, s, c);
      && id in s'.intents
      && (s'.intents[id] == s.intents[id] ||
          (c.CancelIntent? && c.id == id && s'.intents[id] == s.intents[id].(status := Cancelled)))
  {
    if s.locked {
      ExecStable(d, now, s, c);
    } else if Attempt(d, now, s, c).Done? {
      match c {
        case CancelIntent(caller, j, hook) => CancelSettles(d, now, s, caller, j, hook);
        case AdapterExecute(_, _, _, _, _) => AdapterRefuses(d, now, s, c);
        case _ =>
          if !Guarded(c) {
            SimpleStable(d, now, s, c);
          } else {
            PausedRefuses(d, now, s, c);
          }
      }
    }
  }

  lemma PausedRefuses(d: Deployment, now: nat, s: State, c: Call)
    requires s.paused && (c.CreateAndFundIntent? || c.FundIntent? || c.ExecuteIntent?)
    ensures Attempt(d, now, s, c).Revert?
  {
    match c {
      case CreateAndFundIntent(caller, tokenIn, amount, hash, expiry, hook) =>
        assert CreateAndFundStep(d, now, s, caller, tokenIn, amount, hash, expiry, hook).Revert?;
      case FundIntent(caller, id, hook) => assert FundStep(d, now, s, caller, id, hook).Revert?;
      case ExecuteIntent(_, a, signature, data, x) => assert ExecuteStep(d, now, s, a, signature, data, x).Revert?;
    }
  }

  /** Each owner's stored nonces are 0..next-1 with exactly one intent each, and every id is the hash of
      its intent's immutable fields. */
  lemma NoncesAreDense(d: Deployment, s: State, owner: Address, n: Uint64)
    requires Reachable(d, s)
    ensures n < s.Nonce(owner)
      <==> exists id :: id in s.intents && s.intents[id].owner == owner && s.intents[id].nonce == n
    ensures forall id, id' | id in s.intents && id' in s.intents && s.intents[id].owner == s.intents[id'].owner
                             && s.intents[id].nonce == s.intents[id'].nonce :: id == id'
    ensures forall id | id in s.intents :: id == d.keccak(IdPreimage(s.intents[id]))
  {
    ReachableInv(d, s);
    assert Held(s, owner, n);
    forall id | id in s.intents
      ensures id == d.keccak(IdPreimage(s.intents[id])) && s.intents[id].nonce < s.Nonce(s.intents[id].owner)
    {
      assert Recorded(d, s, id);
    }
    forall id, id' | id in s.intents && id' in s.intents && s.intents[id].owner == s.intents[id'].owner
                     && s.intents[id].nonce == s.intents[id'].nonce
      ensures id == id'
    {
      assert Distinguished(s, id, id');
    }
  }

  /** With valid arguments and a nonce to spare, registration fails exactly when the new id is taken,
      and then two different preimages with one hash are at hand. */
  lemma DuplicateIsCollision(d: Deployment, now: nat, s: State, owner: Address, tokenIn: Address, amount: Word,
                             hash: Word, expiry: Uint64)
    requires Catalogued(d, s)
    requires tokenIn != 0 && amount != 0 && hash != 0 && expiry > now && s.Nonce(owner) < UINT64 - 1
    ensures var i := NewIntent(s, owner, tokenIn, amount, hash, expiry);
      var id := IntentId(d, i);
      && (Register(d, now, s, owner, tokenIn, amount, hash, expiry).Revert? <==> id in s.intents)
      && (id in s.intents ==> Collide(d.keccak, IdPreimage(i), IdPreimage(s.intents[id])))
  {
    var i := NewIntent(s, owner, tokenIn, amount, hash, expiry);
    var id := IntentId(d, i);
    assert Recorded(d, s, id);
    if id in s.intents && IdPreimage(i) == IdPreimage(s.intents[id]) {
      IdPreimageInjective(i, s.intents[id]);
    }
  }
}
