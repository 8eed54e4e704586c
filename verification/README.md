# ShadowRoute in Dafny

ShadowRoute takes custody of ERC-20 tokens for *intents*, lets a confidential evaluator pick a route under a
private policy, and executes the route on chain only if the evaluator's key signed exactly that route. Three
programs have to agree: the Solidity router and its V2 adapter, the Go evaluator, and the JavaScript client.
This project models all three and proves, among other things, that what the router executes is what the private
policy allows.

`dafny verify dfyconfig.toml` checks everything.

## How the model is built

* **The chain.** `Custody` gives every entry point of the router and of the V2 adapter as a step on a state:
  intents, nonces, allow-list, both reentrancy locks, one ledger of balances and allowances for all tokens, and the
  event log. Each external call, approvals included, is a place where foreign code runs. Foreign code is a *script*: a tree of calls of
  any depth by anybody but the router and the adapter, which may call every entry point, approve, pull, move and
  mint tokens, and fail at any frame. A call that fails leaves the state as it was. `ChainModule.Chain` is the same
  system as a class that updates its fields statement by statement; each method is proved to do what the step says.
* **Hashes and signatures.** Keccak is an arbitrary function on byte strings. Where agreement depends on it, the
  conclusion is "equal, or these two named preimages collide". Signature recovery is an arbitrary function too;
  `EndToEnd.PolicyEnforced` assumes only that no signature presented in the history was forged and that keys the
  router ever trusted sign nothing but successful evaluations.
* **Integers.** Solidity words, 64-bit counters and bytes are bounded types; Go's `big.Int` is unbounded, and the
  places where it and the 32-byte word disagree are stated.
* **The evaluator.** `Evaluation.Evaluate` takes what the dependencies answer (decrypted request, chain id, node
  replies, quotes, clock) as a parameter `World`; `ExtensionModule.Extension` computes it with the source's loops.
  `Completeness` shows the other direction: which requests are signed and then settle, for every acceptable policy.
  `DeadEnds` shows signed decisions that never can.
* **The serializer.** `Serializer` models promises, reactions and the job queue of ECMA-262, section 27.2, and
  handlers as atomic turns over shared state, which see the state and decide by it whether to suspend again or to
  settle; `RequestServer.Server` is the object with its reassigned queue.
* **Registration.** `Registration` models one run of the tool, its state file and the chain's log; a run may stop
  right after any save. `Provenance` says where every entry of the log comes from.

Two kinds of results stand beside each other. Some say what holds whatever happens (custody, the policy, the
serializer). Others say exactly when an operation succeeds and what it then does, in terms of balances, fields and
answers rather than of the step that computes it: `Admission` (create, fund, cancel, the checks of execute),
`Administration` (the setters, over any history), `VenueTrade` and `Delivery` (executions through the V2 adapter and
through any other), `BestQuote` and `Decisions` (quotes and evaluations), `Provenance` (registration).

Results that are not what a reader might expect:

* A decision signed from live V2 quotes can still be unable to settle: the configured path may end in the zero
  address or in the input token, which neither the quote source nor the signer looks at.
  `EndToEnd.V2CannotFailSpuriously` gives the exact condition, and `DeadEnds.DeadEndNeverSettles` an honest
  evaluation, for every acceptable policy and every such path, that signs it all the same.
* Go and Solidity agree on a digest only while every number fits 256 bits; otherwise Go hashes a longer preimage
  (`Signing.DigestsAgree`). From V2 quotes that cannot happen (`Evaluation.V2NumbersFit`); from a static quote it
  can, for every policy whose minimum is above 256 bits (`DeadEnds.WideMinimumIsSigned`).
* A registration tool that cannot write its state file merely warns. Over any tries, every step is submitted at
  most once and the file tells what was submitted if and only if each try that stopped short had submitted nothing
  or had written the file after its last submission (`Registration.ExactlyOnce`);
  `Registration.FailedSaveResubmits` is a run on the other side of that line.

## Model

| member | source | states |
|---|---|---|
| EndToEnd.PolicyEnforced | contracts/ShadowRouter.sol:173-219 | after any history, for every announced execution of an intent whose stored hash commits to a policy: the transaction that announced it presented an authorization that an evaluation signed, and the policy was obeyed (router, chain, owner, token, nonce, exact amount, listed adapter, risk of the quoted route, minimum paid to the owner, block time not after the authorization's deadline, that not after the policy's expiry), or two preimages named by the policy, that evaluation and that authorization collide |
| EndToEnd.PolicyObeyed | contracts/ShadowRouter.sol:173-219 | so if nothing collides among the policy, what was evaluated and what the history presented, every such execution obeyed its policy |
| EndToEnd.V2CannotFailSpuriously | fcc-scaffold/go/internal/extension/security_adapters.go:224-281 | whatever the node answered, a decision from live quotes settles exactly when it matches the stored intent, the router's live conditions hold, the path ends in a token that is neither zero nor the input, and tokens and venue cooperate; on an honest read it matches |
| EndToEnd.V2SettlesAsSigned | fcc-scaffold/go/internal/extension/extension.go:231-238 | presented with the signature and the calldata its own text carries, the authorization such a decision denotes settles exactly under those conditions, the trusted signer being the evaluator's key |
| DeadEnds.AnyPathIsSigned | fcc-scaffold/go/internal/extension/security_adapters.go:243-275 | for every acceptable policy, and a hash that tells the router's two getters apart, an honest evaluation of its request signs for any configured path of two to four tokens that starts at the input token, wherever it ends |
| DeadEnds.DeadEndNeverSettles | contracts/UniswapV2RouteAdapter.sol:41-42 | if that path ends in the zero address or comes back to the input token, the very authorization the decision denotes is never executed, in any reachable state, at any time, with any signature, whatever tokens and venue do |
| DeadEnds.WideMinimumIsSigned | fcc-scaffold/go/internal/extension/security_adapters.go:186-191 | for every policy whose minimum does not fit 256 bits, one static quote gets a struct signed that is longer than any the router hashes, and any authorization its digest opens is a named collision |
| Completeness.HonestIntentSettles | contracts/ShadowRouter.sol:173-219 | the whole way for an honest request: once evaluated for the V2 adapter, the authorization the decision denotes settles exactly when the router's live conditions hold, tokens and venue cooperate and the path leaves its input token; then the policy's whole amount went in and at least its minimum came out |
| Completeness.HonestEvaluationSucceeds | fcc-scaffold/go/internal/extension/extension.go:85-143 | for every acceptable policy with its funded intent on chain, the request that restates it is signed exactly when the deadline is ahead and within the expiry, some live quote qualifies, the chosen adapter reads as allowed, and the key is there |
| Completeness.RestatedIsVerified | fcc-scaffold/go/internal/extension/extension.go:182-197 | a request that restates a funded intent's policy passes every check against the chain |
| Completeness.RestatedDenotes | fcc-scaffold/go/internal/extension/extension.go:241-269 | writing a policy out as request text and reading it back gives the policy |
| Completeness.ChoosesWhenQuotable | fcc-scaffold/go/internal/extension/security_adapters.go:224-281 | with live quotes a route is chosen exactly when there is time and some configuration qualifies: it fits the request, goes through a listed adapter within the risk, and its venue answers with at least the minimum |
| Quotes.QuotesAreComplete | fcc-scaffold/go/internal/extension/security_adapters.go:243-275 | the source lists one route for every configuration that fits the request and whose venue answers one number per token, at strictly increasing positions and for no other, each with that answer's last number as expected output; it fails exactly when a number is not positive or there is no such configuration |
| BestQuote.ChoosesExactly | fcc-scaffold/go/internal/extension/extension.go:145-180 | with live quotes a decision is made exactly when the request passes its checks, its amount is positive and some configuration qualifies |
| BestQuote.DecisionIsBest | fcc-scaffold/go/internal/extension/extension.go:163-180 | the decision takes adapter, output token and expected output from the first of the qualifying configurations whose venue answered most |
| Decisions.EvaluationIsExact | fcc-scaffold/go/internal/extension/extension.go:85-143 | with a node that serves the router's state: an evaluation succeeds exactly when the dependencies and the key are there, the plaintext decodes, the chain is the request's, the request names this router and a funded intent of its own with a real id, is complete and in time, some quote on offer leads (enough output, valid, within the risk, listed, the most expected, the first of those), its text is readable and its adapter allowed in that state; the answer is then given in every field, commitment, digest and signature word by word |
| Decisions.ChoosesLeader | fcc-scaffold/go/internal/extension/extension.go:145-180 | from any quote source a choice is made exactly when the request is complete and in time and some quote leads, and it is that quote |
| Decisions.IntentRead | fcc-scaffold/go/internal/extension/security_adapters.go:136-155 | what the evaluator reads of an intent through an honest node, by selector and argument, is the stored intent, exactly when it asks the router for 64 digits |
| Decisions.AllowedRead | fcc-scaffold/go/internal/extension/security_adapters.go:156-170 | and what it reads of an adapter is the stored flag |
| Completeness.ChosenCanBeSigned | fcc-scaffold/go/internal/extension/extension.go:199-239 | signing a choice among live quotes cannot fail for an intent with a real id |
| EndToEnd.ApprovalPresented | contracts/ShadowRouter.sol:192-193 | behind every announced execution stands an authorization, with its signature and calldata, that the very transaction which announced it presented, matching the stored intent in every field, at that transaction's block time |
| EndToEnd.ApprovalUpholds | contracts/ShadowRouter.sol:183-193 | one signed authorization, matched with the evaluation that signed it, obeys the committed policy unless named preimages collide |
| EndToEnd.PolicyMatched | fcc-scaffold/go/internal/extension/extension.go:145-180 | a successful evaluation of a policy picks one of its adapters and repeats its amount, minimum, owner, token, nonce, chain and router, with a deadline within its expiry |
| EndToEnd.ExecutionMoves | contracts/ShadowRouter.sol:202-218 | each announced execution moved the intent's amount to the adapter and the announced output to the owner |
| Presentation.HistorySame | contracts/ShadowRouter.sol:193 | a history depends on signature recovery only at the signatures it presents |
| CustodyTheorems.AlwaysSolvent | contracts/ShadowRouter.sol:162-230 | in every reachable state and token the router holds at least the sum of its funded intents |
| CustodyTheorems.SurplusNeverSpent | contracts/ShadowRouter.sol:162-230 | what the router holds beyond that never decreases, whatever anybody does |
| InFlight.SolventWhileFunding | contracts/ShadowRouter.sol:168-169 | while a deposit is pulled, in the token's code before and after its units move, whatever has run so far: the intent is Funded, the router is short of at most the amount until it arrives and then of nothing |
| InFlight.SolventWhileCancelling | contracts/ShadowRouter.sol:226-228 | while a refund is paid, before and after: the intent is Cancelled, the router holds at least the amount on top until it leaves and is never short |
| InFlight.SolventWhileHandingOver | contracts/ShadowRouter.sol:202 | while the input is handed over, before and after: the intent is still Funded, nothing is missing until the amount leaves and at most the amount after |
| InFlight.SolventInForeignAdapter | contracts/ShadowRouter.sol:204-208 | inside an unknown adapter the intent is still Funded and the router is short of at most the amount handed over |
| InFlight.SolventInV2Adapter | contracts/UniswapV2RouteAdapter.sol:47-52 | the same inside the V2 adapter, before its approval takes effect, in the venue, after the approval is cleared, and before and after its own transfer of the output |
| InFlight.SolventWhilePaying | contracts/ShadowRouter.sol:216-217 | while the output is paid, before and after: the intent is Executed, the router holds at least the measured output on top until it leaves and is never short |
| InFlight.UnderwayIsSolvent | contracts/ShadowRouter.sol:128 | at each of those moments the router can pay all it owes but for that shortfall, and no guarded entry point changes anything at any time |
| CustodyTheorems.NeverUnderflows | contracts/ShadowRouter.sol:211-213 | neither checked subtraction of an execution, nor the adapter's, ever underflows |
| CustodyTheorems.RefundAlwaysAvailable | contracts/ShadowRouter.sol:221-230 | in every reachable state, paused, expired or after any administration, the owner's cancellation of a funded intent succeeds unless the token refuses, and moves exactly the amount |
| CustodyTheorems.RefundIsExact | contracts/ShadowRouter.sol:226-229 | with a token that runs no code the refund changes both balances by exactly the amount |
| Admission.CreationExact | contracts/ShadowRouter.sol:111-160 | createIntent succeeds exactly when the router is not paused, token, amount and hash are nonzero, the expiry is ahead, a nonce is left and the hash of the six words is no stored id; then that id stores just the arguments, the caller and its nonce, the caller's nonce is one higher, one event is logged, and nothing else changed |
| Admission.CreateAndFundExact | contracts/ShadowRouter.sol:123-133 | createAndFundIntent succeeds exactly when createIntent would and then the token does not refuse the deposit; the outcome is that of both |
| Admission.FundingExact | contracts/ShadowRouter.sol:162-171 | in every reachable state fundIntent succeeds exactly when the router is not paused, the caller owns the intent, it is Created and unexpired, and balance and allowance suffice once the token's code ran; then it is Funded and exactly its amount went from the caller to the router |
| Admission.PlainFundingExact | contracts/ShadowRouter.sol:162-171 | with a token without hooks the whole new state: one status, two balances, one allowance, two log lines |
| Admission.CancellationExact | contracts/ShadowRouter.sol:221-230 | in every reachable state, paused or not, cancelIntent succeeds exactly when the caller owns the intent and it is Created, or Funded and its token does not refuse; a Created intent is only marked, with one event of zero |
| Admission.FundEffectsFirst | contracts/ShadowRouter.sol:168-170 | when the token's code runs the intent is already Funded and the lock held; units move after its first part, and the event comes after all of it |
| Admission.CancelEffectsFirst | contracts/ShadowRouter.sol:226-229 | the same of a refund, the intent already Cancelled |
| Admission.GuardExact | contracts/ShadowRouter.sol:178-197 | the checks of executeIntent pass exactly for an authorization whose eleven fields, hashed in the order of the type string, the trusted signer signed, and which is a funded, unexpired intent's own, in time, for an allowed adapter, these calldata and a nonzero output token |
| CustodyTheorems.CustodyConserved | contracts/ShadowRouter.sol:162-230 | per token, everything ever funded is still funded, was refunded, or was handed to adapters |
| CustodyTheorems.SettledOnce | contracts/ShadowRouter.sol:179-216 | a deposit leaves at most once, by one refund or one execution, never both |
| CustodyTheorems.IntentBalances | contracts/ShadowRouter.sol:162-230 | the same books for a single intent, from its status and its story in the log |
| CustodyTheorems.MovementsAreAnnounced | contracts/ShadowRouter.sol:70-91 | the router's token movements are, in order, exactly those its events claim; it has granted no allowance and nobody else ever debits it |
| CustodyTheorems.LifecycleIsOneWay | contracts/ShadowRouter.sol:14-30 | an intent's fields never change, its status only moves forward, Executed and Cancelled are final |
| CustodyTheorems.PausedOnlyCancels | contracts/ShadowRouter.sol:98-101 | a call that begins while paused, from outside or from a callback, changes a stored intent only by cancelling it |
| CustodyTheorems.NoncesAreDense | contracts/ShadowRouter.sol:145-157 | per owner the stored nonces are 0 to next-1 with one intent each, and each id is the hash of its intent's immutable fields |
| CustodyTheorems.DuplicateIsCollision | contracts/ShadowRouter.sol:146-147 | a well-formed creation fails exactly when its id is taken, and then two different preimages with one hash are at hand |
| CustodyInvariant.ExecKeeps | contracts/ShadowRouter.sol:111-255 | every call with arbitrary callbacks keeps the invariant (solvency, one story per intent, accounts equal to announcements, every execution justified), only makes progress, and announces only executions approved, at its own time, by something it presents itself |
| CustodyInvariant.HistoryKeeps | contracts/ShadowRouter.sol:111-255 | so does every history of transactions |
| CustodyInvariant.ApprovedInTime | contracts/ShadowRouter.sol:180-193 | every announced execution was approved by an authorization, signature and calldata that the transaction which announced it presented, at that transaction's block time, however deep in its calls, before the intent's expiry and not after the deadline |
| CustodyInvariant.InitialInv | contracts/ShadowRouter.sol:103-109 | the constructor establishes the invariant |
| CustodyInvariant.AdapterRefuses | contracts/UniswapV2RouteAdapter.sol:37 | nobody but the router gets the adapter to act |
| Interference.LockBlocks | contracts/ShadowRouter.sol:128 | while locked, no guarded entry point changes anything |
| Interference.RunStable | contracts/ShadowRouter.sol:202-208 | any nested script inside a locked entry point leaves stored intents, router movements and announcements alone, takes nothing from accounts that granted nothing, and only adds intents |
| Settlement.ExecuteSettles | contracts/ShadowRouter.sol:196-218 | an execution settles one intent, moves its amount to the adapter and everything measured to the owner, and spends no surplus |
| Settlement.DepositSettles | contracts/ShadowRouter.sol:168-170 | funding moves exactly the intent's amount from its owner and changes nothing else |
| Settlement.CancelSettles | contracts/ShadowRouter.sol:221-230 | cancelling moves exactly the refund to the owner and changes nothing else |
| Settlement.SwapDrifts | contracts/UniswapV2RouteAdapter.sol:46-49 | during the swap only the input token is at the venue's disposal, and afterwards the adapter has granted nothing |
| Settlement.V2Gains | contracts/UniswapV2RouteAdapter.sol:50-52 | the adapter's output balance does not fall, and the router's rises by at least what was measured |
| V2Settlement.V2ExecutionSucceeds | contracts/UniswapV2RouteAdapter.sol:37-52 | an authorization whose calldata says the same, past the router's guard, succeeds exactly when tokens and venue cooperate and the output differs from the input |
| VenueTrade.VenueFinds | contracts/UniswapV2RouteAdapter.sol:46-48 | when the venue's calls start, the adapter has granted it exactly the amount of the input token, and nothing else to anybody in any token; when they are over the grant is withdrawn before other code runs |
| VenueTrade.VenueOfExecution | contracts/UniswapV2RouteAdapter.sol:46-48 | so in every execution, with the intent's amount |
| VenueTrade.VenueTakesAtMost | contracts/UniswapV2RouteAdapter.sol:46-49 | whatever venue and tokens run during a swap, the adapter loses at most the amount of its input token and nothing of any other |
| VenueTrade.AdapterKeepsItsOwn | contracts/UniswapV2RouteAdapter.sol:45-52 | a whole execution leaves the adapter with no less of any token than before |
| VenueTrade.RouteAdmitted | contracts/UniswapV2RouteAdapter.sol:37-42 | the adapter takes calldata exactly from the router, one at a time, in time, for two to four tokens from the input token to another nonzero one, with a minimum |
| VenueTrade.HonestTrade | contracts/ShadowRouter.sol:173-219 | with tokens without hooks and a venue that pulls what it was granted and sends part of what it holds, an admitted execution succeeds exactly when that is the minimum at least; then the amount has gone from router to venue, the output from venue to owner, no allowance, no other balance and no other field changed, and six lines were logged |
| Delivery.ForeignExecutionExact | contracts/ShadowRouter.sol:173-219 | in every reachable state an execution through any other adapter succeeds exactly when it is admitted, no token and not the adapter reverts, the adapter names the output token, and the router received the minimum; then the amount went to the adapter and all that was received to the owner |
| Delivery.KeepsNothing | contracts/ShadowRouter.sol:206-218 | through any adapter, with an output token without hooks, the router keeps none of the output |
| Delivery.ExecuteEffectsFirst | contracts/ShadowRouter.sol:216-219 | while the output token's code runs the intent is Executed already and the lock held |
| V2Settlement.ClientRouteAccepted | contracts/UniswapV2RouteAdapter.sol:37-42 | of the routes the client encodes, the adapter accepts exactly those that start at the input token, do not end in the zero address and are not late, while it is unlocked: the client's checks leave it nothing else to refuse |
| Settlement.RereadsAlike | contracts/ShadowRouter.sol:204-217 | the intent the router reads from storage again after the hand-over and after the adapter is the one it started with |
| V2Settlement.AdapterGrantsNothing | contracts/UniswapV2RouteAdapter.sol:47-49 | between transactions the adapter's allowance to anyone is zero in every token and it is unlocked |
| V2Settlement.V2ForwardsExactly | contracts/UniswapV2RouteAdapter.sol:50-52 | with an output token that runs no code, the adapter keeps none of the output and the router gets exactly the measured amount |
| V2Settlement.OwnerReceivesMeasured | contracts/ShadowRouter.sol:211-218 | the amount paid to the owner is at least what the adapter measured and at least the calldata's minimum |
| ChainModule.Chain.Deploy | contracts/ShadowRouter.sol:103-109 | deployment fails on a zero address, else leaves the initial state |
| ChainModule.Chain.CreateIntent | contracts/ShadowRouter.sol:111-118 | does the creation step; on success the intent is stored with just the arguments, the caller and its next nonce, and announced |
| ChainModule.Chain.Register | contracts/ShadowRouter.sol:135-160 | the shared creation: argument checks, nonce, id, duplicate check, storage, event, in order |
| ChainModule.Chain.CreateAndFundIntent | contracts/ShadowRouter.sol:123-133 | does the create-and-fund step, callbacks included |
| ChainModule.Chain.FundIntent | contracts/ShadowRouter.sol:162-171 | does the funding step, callbacks included; success means the caller owns the intent and it was created, unexpired and the router open |
| CustodyTheorems.NeverAdmittedAgain | contracts/ShadowRouter.sol:177-195 | an intent once executed or cancelled is never let in again: after any further history the router's checks turn away every authorization for it, with any signature and calldata, at any time |
| CustodyTheorems.ReplayRefused | contracts/ShadowRouter.sol:179-216 | an authorization that was executed fails whenever it is presented again, after whatever happened since |
| ChainModule.Chain.ExecuteIntent | contracts/ShadowRouter.sol:173-219 | does the execution step; on success returns the authorized token and the announced amount, at least the minimum |
| ChainModule.Chain.CancelIntent | contracts/ShadowRouter.sol:221-230 | does the cancellation step |
| ChainModule.Chain.SetAdapter | contracts/ShadowRouter.sol:232-236 | succeeds exactly for the owner and a nonzero address; then one flag and one event are all that changed |
| ChainModule.Chain.SetTeeSigner | contracts/ShadowRouter.sol:238-243 | succeeds exactly for the owner and a nonzero address; then the signer and one event naming both signers are all that changed |
| ChainModule.Chain.SetPaused | contracts/ShadowRouter.sol:245-248 | succeeds exactly for the owner; then the switch and one event are all that changed |
| ChainModule.Chain.TransferOwnership | contracts/ShadowRouter.sol:250-255 | succeeds exactly for the owner and a nonzero address; then the owner and one event naming both owners are all that changed |
| Administration.SetterExact | contracts/ShadowRouter.sol:232-255 | each of the four setters succeeds exactly when the owner calls it with a usable address; then the one field has the given value, the log one event more, and nothing else changed; otherwise the error says which |
| Administration.ExecSteers | contracts/ShadowRouter.sol:93-96 | whatever code runs inside a call, owner, signer, pause, allow-list and announced signers afterwards are what a sequence of setters makes of those before, each made somewhere in the call by the owner of that moment |
| Administration.OnlyOwnersAdminister | contracts/ShadowRouter.sol:103-109 | over every history: the administration is what the orders of successive owners make of the constructor's, and every signer ever trusted is the constructor's or was appointed by an owner of the time |
| ChainModule.Chain.Execute | contracts/UniswapV2RouteAdapter.sol:32-53 | does the adapter's step: decode, approve, swap, clear, measure, forward; the amount it returns is what the swap added to its balance |
| ChainModule.Chain.Replay | contracts/ShadowRouter.sol:111-255 | a history of transactions executed one by one ends in the history's state |
| Abi.RouteRoundTrip | contracts/UniswapV2RouteAdapter.sol:38 | Solidity's decoding of (address[], uint256, uint256) inverts the encoding for every path length it admits, and rejects longer ones |
| Abi.EncodeRouteInjective | contracts/UniswapV2RouteAdapter.sol:38 | two routes with one encoding are one route |
| RouterTypes.IdPreimageInjective | contracts/ShadowRouter.sol:146 | the id's preimage determines every immutable field |
| Bytes.GoWordsLength | fcc-scaffold/go/internal/extension/extension.go:271-279 | Go's concatenated words are never shorter than the ABI's and exactly as long only when every number fits 256 bits |
| Bytes.GoWordsInjective | fcc-scaffold/go/internal/extension/extension.go:271-279 | a Go preimage equal to an ABI preimage of as many words carries the same values |
| PolicyCommitment.EncodersAgree | integration/intent-commitment.mjs:6-31 | for every request Go accepts, the client accepts the same policy exactly when it is in range, and then both hash the same bytes; otherwise Go's are longer |
| PolicyCommitment.CommitmentBinds | fcc-scaffold/go/internal/extension/extension.go:241-269 | a request matching a client's commitment denotes that policy in all ten fields, adapter list in order and length included, or two named preimages collide |
| PolicyCommitment.AdaptersAgree | fcc-scaffold/go/internal/extension/extension.go:258-268 | adapter lists hash from the same bytes in both languages |
| PolicyCommitment.ClientRouteRoundTrip | integration/v2-route.mjs:3-13 | the adapter decodes whatever the client encodes to the same route, and no two routes share calldata |
| Signing.DigestsAgree | fcc-scaffold/go/internal/extension/extension.go:225-227 | for a decision addressed to this router, equal digests when its numbers fit; a longer struct preimage otherwise |
| Signing.DigestBinds | contracts/ShadowRouter.sol:257-278 | a digest the router recomputes and the evaluator signed binds router, chain and all eleven fields, whatever router the request named, or two named preimages collide |
| Signing.GenuineAttuned | contracts/ShadowRouter.sol:46-48 | hashing the same type strings, name and version makes Go's and Solidity's fixed hashes one |
| Signing.GenuineEncodersAgree | integration/intent-commitment.mjs:3-4 | a client and an evaluator that each hash the policy type their own source spells out commit to every policy in range alike |
| ChainReader.GetterRoundTrip | fcc-scaffold/go/internal/extension/security_adapters.go:136-155 | reading the seven-word getter inverts it for every intent the router can store, and reports an unused id as absent |
| ChainReader.GetterInjective | fcc-scaffold/go/internal/extension/security_adapters.go:149-154 | no two different intents read alike |
| ChainReader.AllowedRoundTrip | fcc-scaffold/go/internal/extension/security_adapters.go:156-170 | the allow-list getter reads back as the stored flag |
| Quotes.QuotesAreSound | fcc-scaffold/go/internal/extension/security_adapters.go:243-275 | every quoted route's text parses, its output is below 2^256, and its calldata decodes to the configured path, the minimum and the deadline |
| Quotes.CollectedFrom | fcc-scaffold/go/internal/extension/security_adapters.go:243-276 | every returned route comes from a usable configuration entry and that venue's answer |
| Quotes.V2QuoteSource.Quotes | fcc-scaffold/go/internal/extension/security_adapters.go:224-281 | the loop over the configuration computes the specified list, or the source's error |
| Quotes.V2QuoteSource.ParsePath | fcc-scaffold/go/internal/extension/security_adapters.go:247-258 | fills the path, unless some element is no address |
| RouteChoice.ChoiceIsEarliestBest | fcc-scaffold/go/internal/extension/extension.go:145-180 | past the request checks a decision is made exactly when some route is eligible, for the earliest eligible route of maximum expected output |
| RouteChoice.OrderIsIrrelevant | fcc-scaffold/go/internal/extension/extension.go:163-180 | permuting the quotes changes neither whether there is a decision nor its expected output |
| RouteChoice.SortIsStable | fcc-scaffold/go/internal/extension/extension.go:174-178 | the sort is a descending permutation that keeps ties in order |
| RouteChoice.ScaffoldDominatesStandalone | fcc-extension/main.go:110-164 | where quotes outlive the deadline, what the standalone service accepts the scaffold accepts with at least its expected output, and on lower-case adapters they coincide |
| RouteChooser.StableSortIsUnique | fcc-scaffold/go/internal/extension/extension.go:174-178 | order and ties determine the sorted slice |
| RouteChooser.SliceStable | fcc-scaffold/go/internal/extension/extension.go:174-178 | the in-place sort leaves the slice stably sorted |
| RouteChooser.ChooseRouteInPlace | fcc-scaffold/go/internal/extension/extension.go:145-180 | checks, filling of the allow-list, appending of candidates and in-place sort compute the specified choice |
| Evaluation.EvaluationEstablishes | fcc-scaffold/go/internal/extension/extension.go:85-143 | what a success guarantees: chain checks passed, adapter listed, deadline ahead and within expiry, decision repeats the request, reported digest is the signed one |
| Evaluation.VerifiedIff | fcc-scaffold/go/internal/extension/extension.go:182-197 | a request passes verification against what the getter reads of a stored intent exactly when that is funded, its owner and token are spelt in some letter case, amount, nonce and expiry are the same, and the policy's commitment is the stored hash |
| Evaluation.VerifiedMatches | fcc-scaffold/go/internal/extension/extension.go:182-197 | against any text that reads as a stored intent, what passes equals it in owner, token, amount, nonce and expiry, the intent is funded, and the policy hashes to its stored hash |
| Evaluation.SignatureCarried | fcc-scaffold/go/internal/extension/extension.go:231-237 | a signed decision's text carries the key's signature over the digest it reports, 65 bytes ending in 27 or 28 |
| Evaluation.HonestlyVerified | fcc-scaffold/go/internal/extension/extension.go:102-112 | the same through the node's bytes, when the node answers with the stored intent |
| Evaluation.V2NumbersFit | fcc-scaffold/go/internal/extension/extension.go:199-239 | every decision signed from live quotes has only numbers below 2^256 |
| Evaluation.V2DecisionsAgree | fcc-scaffold/go/internal/extension/extension.go:199-239 | such a decision's digest is the router's, and its calldata says what the authorization says |
| Evaluation.SignedByEvaluation | fcc-scaffold/go/internal/extension/extension.go:125-132 | a digest is among those signed exactly when some evaluation succeeded with it |
| Evaluation.CountTurns | fcc-scaffold/go/internal/extension/extension.go:138-140 | the counter is the number of evaluations that signed, but for whole turns of 64 bits |
| ExtensionModule.Extension.ProcessEvaluate | fcc-scaffold/go/internal/extension/extension.go:85-143 | an evaluation counts and signs its digest exactly when it succeeds |
| ExtensionModule.Extension.SignDecision | fcc-scaffold/go/internal/extension/extension.go:199-239 | reports the first malformed field, else fills in commitment, digest and the shifted signature |
| ExtensionModule.Extension.PrivatePolicyCommitment | fcc-scaffold/go/internal/extension/extension.go:241-269 | the loop over adapters computes the specified commitment or the first error |
| ExtensionModule.Extension.ConcatWords | fcc-scaffold/go/internal/extension/extension.go:271-277 | appends every word in order |
| Hex.AddressHexReadsBack | fcc-scaffold/go/internal/extension/security_adapters.go:154 | a checksummed address reads back as itself |
| Hex.AddressTextUpToCase | fcc-scaffold/go/internal/extension/extension.go:186 | text agrees with an address's checksummed text up to case exactly when it is prefixed and denotes that address |
| Hex.HashHexInjective | fcc-scaffold/go/internal/extension/extension.go:193 | two hashes whose text agrees up to case are equal |
| Decimal.ParseInvertsFormat | fcc-scaffold/go/internal/extension/security_adapters.go:154 | a number printed in base 10 parses to itself |
| Decimal.ParsesNumerals | fcc-scaffold/go/internal/extension/extension.go:155 | text parses to a number exactly when it is an optional sign, any zeros and that number printed in base 10 |
| Serialization.OneAtATime | fcc-scaffold/typescript/src/base/server.ts:184-191 | in every interleaving at most one handler is active, and handlers start in order of arrival, each once |
| Serialization.AnswersAreSequential | fcc-scaffold/typescript/src/base/server.ts:136-138 | answers come in order of arrival and equal those of handling the requests one after the other, whichever handlers fail |
| Serialization.StateIsSequential | fcc-scaffold/typescript/src/base/server.ts:179-191 | between handlers the shared state is the sequential one |
| Serialization.QuietIsAnswered | fcc-scaffold/typescript/src/base/server.ts:184-191 | when no job is left and no handler is suspended, every request has been answered |
| Serialization.QuietOrEnabled | fcc-scaffold/typescript/src/base/server.ts:184-191 | otherwise a job or the active handler can go on |
| Serialization.AllComplete | fcc-scaffold/typescript/src/base/server.ts:179-191 | without arrivals only boundedly many steps are possible, and after any run of them that leaves none every request has been answered and the state is the sequential one |
| PromiseChain.QueueAdvances | fcc-scaffold/typescript/src/base/server.ts:186-189 | the queue settles behind a run whatever the run's outcome, and the next handler is up |
| RequestServer.Server.Serialize | fcc-scaffold/typescript/src/base/server.ts:184-191 | chains the run behind the queue and makes its end the new queue |
| RequestServer.Server.SettlePromise | fcc-scaffold/typescript/src/base/server.ts:185-189 | a promise settles once and queues one job per reaction, in order |
| RequestServer.Server.RunNextJob | fcc-scaffold/typescript/src/base/server.ts:185-189 | the next job has the effect the language gives it |
| Registration.ResumesRefineOneRun | fcc-scaffold/tools/pkg/fccutils/registration.go:59-172 | any number of crashes after saves, each followed by the same command, submits what one uninterrupted run submits, in order, with the same ids, and ends the same way, whichever other saves fail |
| Registration.ExactlyOnce | fcc-scaffold/tools/pkg/fccutils/registration.go:74-156 | over any tries with any failures and any failed saves: each wanted step is submitted at most once in the order r, R, a, the availability check names the attestation before it, on completion each was submitted once and a promotion names the check's instruction or, without a check, the given one, and otherwise the file tells exactly what was, if and only if each try that stopped short had submitted nothing or saved after its last submission |
| Provenance.RunIsExact | fcc-scaffold/tools/pkg/fccutils/registration.go:59-172 | one run, from any log and file, submits the steps wanted and not in the file, in order, each with the request the services call for at that moment (step r: a pre-registration exactly when the registry does not know the machine); it stops short only in a crash after a save or because its next step was refused, for the reason it gives; an unreadable file stops it at once |
| Provenance.EveryEntry | fcc-scaffold/tools/pkg/fccutils/registration.go:74-156 | over any tries, every entry of the log was accepted by the services of one of them, as the step then to do and with the request that step makes: r as above, an availability check after a consistent policy naming the latest attestation, a promotion with its proof naming the check's instruction or the given one |
| Registration.FiledIffWritten | fcc-scaffold/tools/pkg/fccutils/registration.go:101-103 | the same equivalence for one run, from any file a run in order leaves |
| Registration.FailedSaveResubmits | fcc-scaffold/tools/pkg/fccutils/registration.go:119-127 | a concrete case in which a failed save makes the next try request the attestation again |
| RegistrarModule.Registrar.RegisterNode | fcc-scaffold/tools/pkg/fccutils/registration.go:59-172 | the assignments, saves and the final removal do what the specified run does |
| RegistrarModule.Registrar.SaveState | fcc-scaffold/tools/pkg/fccutils/registration.go:48-57 | writes the file if it can, and a crash may follow |
| Wire.HexRoundTrips | fcc-scaffold/typescript/src/base/encoding.ts:16-42 | decoding inverts encoding, encoding inverts decoding up to case and prefix, and decoding fails exactly on odd length or a non-digit |
| Wire.NameRoundTrip | fcc-scaffold/typescript/src/base/encoding.ts:50-74 | a name of at most 32 bytes survives the wire exactly when it does not end in NUL, and otherwise loses just those |
| Wire.WireInjective | fcc-scaffold/typescript/src/base/encoding.ts:50-58 | two names share a wire form exactly when they differ at most in trailing NULs |
| Wire.LookupByName | fcc-scaffold/typescript/src/base/types.ts:105-124 | in any letter case or prefix of the wire form, lookup returns the first exact registration, else the first wildcard, else nothing |
| Wire.Framework.Handle | fcc-scaffold/typescript/src/base/types.ts:96-102 | appends a registration, or fails on a long name and changes nothing |
| Wire.Framework.Lookup | fcc-scaffold/typescript/src/base/types.ts:105-117 | the two scans compute the specified lookup |
| Wire.DecodeText | fcc-scaffold/typescript/src/base/encoding.ts:16-35 | fills the array with the specified bytes, or the first error |
| Wire.EncodeBytes | fcc-scaffold/typescript/src/base/encoding.ts:38-42 | accumulates the specified text |
| Wire.EncodeName | fcc-scaffold/typescript/src/base/encoding.ts:50-58 | writes the name into a zeroed buffer of 32 bytes and encodes it |
| Wire.DecodeName | fcc-scaffold/typescript/src/base/encoding.ts:64-74 | drops exactly the trailing NULs; malformed text is the empty name |

## Left out

- ChainModule.Chain.MoveUnits: tokens move exactly what they are asked to, and balances are unbounded naturals, so fee-taking, rebasing or lying tokens and overflow of a total supply are not modelled; hooks before and after each movement are.
- VenueTrade.VenueTakesAtMost: an allowance of 2^256 - 1 means no limit, so for that one amount the adapter's balance is taken to fit 256 bits, as every balance in a uint256 does.
- VenueTrade.AdapterKeepsItsOwn: the same, for an intent of that one amount.
- VenueTrade.HonestTrade: the arguments of the call to the venue (amount, minimum, path, recipient, deadline) are not recorded; the venue is arbitrary code, and what it may do is bounded by what it was granted.
- ExtensionModule.Extension.SignDecision: signing a 32-byte digest cannot fail, and a key is an arbitrary function from digests to 65 bytes whose last is 0 or 1.
- Evaluation.EvaluationEstablishes: the clock is read once per evaluation, where the source reads it twice in chooseRoute.
- Serialization.AllComplete: the state a handler begins in bounds how often it suspends, so one that never settles is not modelled; what a handler awaits beyond the shared state is part of its own definition, and handlers do not call serialize themselves.
- Registration.ExactlyOnce: a submission whose outcome the tool reports as failed is taken not to have reached the chain, crashes happen right after a save, a write that fails leaves the file as it was, and removing the file succeeds.
- Hex.HashHexInjective: letter case is folded for ASCII text only, which is all that addresses and hashes contain.
- Wire.NameRoundTrip: names are their UTF-8 bytes; encoding and decoding of UTF-8 text is not modelled.
- Signature malleability and the internals of Keccak, ECDSA and ECIES: foreign code; recovery and hashing are arbitrary functions.
- HTTP, JSON, JSON-RPC, timeouts, environment variables and logging in the Go, TypeScript and Python servers: only the decoded values enter the model, and calls that fail are answers that are absent.
- The mapping of handler results and evaluations to ActionResult records and log lines: field copying.
- The standalone Go service's own signDecision and privatePolicyCommitment: the same preimages as the scaffold's.
- The Python port of the server, the mocks, ShadowRouteInstructionSender.sol, the web client, deployment plans and scripts.
- Gas, block building and the value of quotes: the venue is arbitrary code behind its interface.
- The router or the adapter as callers of themselves through foreign code: contracts act only through the code modelled here.
