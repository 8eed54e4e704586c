/** Reading a chain's log: the router's token movements, its announcements, each intent's story. */
module CustodyLog {
  import opened Bytes
  import opened Custody
  import opened MapSums
  import opened RouterTypes

  datatype Move = Move(token: Address, from: Address, to: Address, units: nat)

  /** Every movement of units the router ordered, and every debit of the router by anybody else. */
  function RouterMoves(d: Deployment, events: seq<Event>): seq<Move>
  {
    if events == [] then []
    else
      var rest, e := RouterMoves(d, events[..|events| - 1]), events[|events| - 1];
      if e.Transfer? && (e.operator == d.self || (e.from == d.self && e.units > 0))
      then rest + [Move(e.token, e.from, e.to, e.units)] else rest
  }

  predicate Settling(e: Event)
  {
    e.IntentFunded? || e.IntentExecuted? || e.IntentCancelled?
  }

  /** The router's own claims to have moved units. */
  function Announcements(events: seq<Event>): seq<Event>
  {
    if events == [] then []
    else
      var rest, e := Announcements(events[..|events| - 1]), events[|events| - 1];
      if Settling(e) then rest + [e] else rest
  }

  /** All that was ever logged about one intent. */
  function Story(events: seq<Event>, id: Word): seq<Event>
  {
    if events == [] then []
    else
      var rest, e := Story(events[..|events| - 1], id), events[|events| - 1];
      if (e.IntentCreated? || Settling(e)) && e.id == id then rest + [e] else rest
  }

  /** Every signer the router ever trusted. */
  function Signers(events: seq<Event>): set<Address>
  {
    if events == [] then {}
    else
      var rest, e := Signers(events[..|events| - 1]), events[|events| - 1];
      if e.TeeSignerSet? then rest + {e.newSigner} else rest
  }

  /** The movements one announcement claims, given the intent it is about. */
  function Claimed(d: Deployment, e: Event, i: Intent): seq<Move>
  {
    match e
    case IntentFunded(_, amount) => [Move(i.tokenIn, i.owner, d.self, amount)]
    case IntentExecuted(_, adapter, tokenOut, amountIn, amountOut) =>
      [Move(i.tokenIn, d.self, adapter, amountIn), Move(tokenOut, d.self, i.owner, amountOut)]
    case IntentCancelled(_, refunded) => if refunded == 0 then [] else [Move(i.tokenIn, d.self, i.owner, refunded)]
    case _ => []
  }

  /** The movements a sequence of announcements claims, in order. */
  function ClaimedMoves(d: Deployment, intents: map<Word, Intent>, said: seq<Event>): seq<Move>
  {
    if said == [] then []
    else
      var rest, e := ClaimedMoves(d, intents, said[..|said| - 1]), said[|said| - 1];
      if Settling(e) && e.id in intents then rest + Claimed(d, e, intents[e.id]) else rest
  }

  lemma Logged(d: Deployment, events: seq<Event>, e: Event)
    ensures RouterMoves(d, events + [e]) == RouterMoves(d, events) +
              if e.Transfer? && (e.operator == d.self || (e.from == d.self && e.units > 0))
              then [Move(e.token, e.from, e.to, e.units)] else []
    ensures Announcements(events + [e]) == Announcements(events) + if Settling(e) then [e] else []
    ensures Signers(events + [e]) == Signers(events) + if e.TeeSignerSet? then {e.newSigner} else {}
    ensures forall id :: Story(events + [e], id) == Story(events, id) +
              if (e.IntentCreated? || Settling(e)) && e.id == id then [e] else []
  {
    assert (events + [e])[..|events + [e]| - 1] == events;
  }

  lemma Claiming(d: Deployment, intents: map<Word, Intent>, said: seq<Event>, e: Event)
    ensures ClaimedMoves(d, intents, said + [e]) == ClaimedMoves(d, intents, said) +
              if Settling(e) && e.id in intents then Claimed(d, e, intents[e.id]) else []
  {
    assert (said + [e])[..|said + [e]| - 1] == said;
  }

  /** Claims depend only on what never changes about an intent. */
  lemma {:induction false} ClaimsKept(d: Deployment, a: map<Word, Intent>, b: map<Word, Intent>, said: seq<Event>)
    requires forall e | e in said && Settling(e) :: e.id in a && e.id in b && SameIntent(a[e.id], b[e.id])
    ensures ClaimedMoves(d, a, said) == ClaimedMoves(d, b, said)
  {
    if said != [] {
      var front := said[..|said| - 1];
      assert said[|said| - 1] in said;
      ClaimsKept(d, a, b, front);
    }
  }

  // ---------------------------------------------------------------- custody sums

  function FundedAmounts(intents: map<Word, Intent>, token: Address): map<Word, nat>
  {
    map id | id in intents && intents[id].status == Funded && intents[id].tokenIn == token :: intents[id].amount
  }

  /** What the router owes the owners of funded intents, in one token. */
  ghost function FundedSum(intents: map<Word, Intent>, token: Address): nat
  {
    Sum(FundedAmounts(intents, token))
  }

  /** Units of a token the router holds beyond what it owes. */
  ghost function Surplus(d: Deployment, s: State, token: Address): int
  {
    s.ledger.Balance(token, d.self) - FundedSum(s.intents, token)
  }

  function Due(i: Intent, token: Address): nat
  {
    if i.status == Funded && i.tokenIn == token then i.amount else 0
  }

  /** Changing one stored intent changes the sums by what that intent is due. */
  lemma FundedSumUpdate(intents: map<Word, Intent>, id: Word, i: Intent, token: Address)
    requires id in intents
    ensures FundedSum(intents[id := i], token) == FundedSum(intents, token) - Due(intents[id], token) + Due(i, token)
  {
    var before, after := FundedAmounts(intents, token), FundedAmounts(intents[id := i], token);
    if id in before {
      SumPick(before, id);
    }
    if id in after {
      SumPick(after, id);
    }
    assert before - {id} == after - {id};
    assert id !in before ==> before - {id} == before;
    assert id !in after ==> after - {id} == after;
  }
}
