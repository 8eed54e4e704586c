/** The request serializer: a queue of promises, each request chained behind the last, under the promise
    and job semantics of ECMA-262, section 27.2. Requests arrive at any time, handlers may be plain or
    asynchronous functions and may fail. */
module Serializer {
  import opened Wrappers

  datatype Value = Undefined | Data(n: nat)
  datatype Settlement = Fulfilled(value: Value) | Rejected(reason: nat)

  // ---------------------------------------------------------------- promises and jobs

  // The promises one server creates: the queue before each request, each request's run, and the promise
  // an asynchronous handler returned.
  datatype Name = Queue(k: nat) | Run(k: nat) | Returned(k: nat)

  datatype Action = Invoke(k: nat) | Discard | Forward | Respond(k: nat)
  datatype Reaction = Reaction(target: Option<Name>, action: Action)
  datatype Promise = Pending(reactions: seq<Reaction>) | Settled(outcome: Settlement)

  // PromiseReactionJob and NewPromiseResolveThenableJob
  datatype Job = React(reaction: Reaction, argument: Settlement) | Adopt(target: Name, thenable: Name)

  datatype Response = Response(k: nat, outcome: Settlement)

  /** What the server and the engine hold: the queue field, the promises, the jobs in order, and the
      answers given so far. */
  datatype Loop = Loop(queue: Name, promises: map<Name, Promise>, jobs: seq<Job>, responses: seq<Response>)

  function Lookup(promises: map<Name, Promise>, p: Name): Option<Promise>
  {
    if p in promises then Some(promises[p]) else None
  }

  function JobsFor(reactions: seq<Reaction>, outcome: Settlement): (jobs: seq<Job>)
    ensures |jobs| == |reactions|
  {
    if reactions == [] then [] else [React(reactions[0], outcome)] + JobsFor(reactions[1..], outcome)
  }

  function Create(l: Loop, p: Name): Loop
  {
    l.(promises := l.promises[p := Pending([])])
  }

  // PerformPromiseThen
  function Then(l: Loop, p: Name, r: Reaction): Loop
  {
    match Lookup(l.promises, p)
    case None => l
    case Some(Pending(reactions)) => l.(promises := l.promises[p := Pending(reactions + [r])])
    case Some(Settled(outcome)) => l.(jobs := l.jobs + [React(r, outcome)])
  }

  // FulfillPromise and RejectPromise; a promise settles once
  function Settle(l: Loop, p: Name, outcome: Settlement): Loop
  {
    match Lookup(l.promises, p)
    case Some(Pending(reactions)) =>
      l.(promises := l.promises[p := Settled(outcome)], jobs := l.jobs + JobsFor(reactions, outcome))
    case _ => l
  }

  function Take(l: Loop): Loop
    requires l.jobs != []
  {
    l.(jobs := l.jobs[1..])
  }

  /** The promise half of serialize: chain the run behind the queue, make its end the new queue, await it. */
  function Enqueue(l: Loop, k: nat): Loop
  {
    var run := Then(Create(l, Run(k)), l.queue, Reaction(Some(Run(k)), Invoke(k)));
    var chained := Then(Create(run, Queue(k + 1)), Run(k), Reaction(Some(Queue(k + 1)), Discard));
    Then(chained.(queue := Queue(k + 1)), Run(k), Reaction(None, Respond(k)))
  }

  // ---------------------------------------------------------------- handlers

  /** What a handler does before it suspends or settles, to the state all handlers share. */
  datatype Turn<S> = Suspend(app: S) | Return(app: S, outcome: Settlement)

  /** A handler works on shared state in atomic turns. Each turn sees the states in which its turns so far
      began, the current one last, and decides by them whether the handler suspends again or settles, and
      with what. The state in which it began bounds how often it suspends; a plain function has one turn. */
  datatype Handler<!S> = Handler(isAsync: bool, turn: seq<S> -> Turn<S>, limit: S -> nat)

  function Limit<S>(h: Handler<S>, s: S): nat
  {
    if h.isAsync then h.limit(s) else 0
  }

  function Next<S>(h: Handler<S>, seen: seq<S>): (t: Turn<S>)
    requires seen != []
    ensures |seen| > Limit(h, seen[0]) ==> t.Return?
    ensures |seen| <= Limit(h, seen[0]) || h.turn(seen).Return? ==> t == h.turn(seen)
  {
    match h.turn(seen)
    case Suspend(app) => if |seen| > Limit(h, seen[0]) then Return(app, Fulfilled(Undefined)) else Suspend(app)
    case done => done
  }

  /** How a handler ends that nobody interferes with. */
  function Finish<S>(h: Handler<S>, seen: seq<S>): (t: Turn<S>)
    requires seen != []
    ensures t.Return?
    decreases Limit(h, seen[0]) + 1 - |seen|
  {
    match Next(h, seen)
    case Suspend(app) => Finish(h, seen + [app])
    case done => done
  }

  /** The state after the first k requests, one after the other. */
  function Sequential<S>(requests: seq<Handler<S>>, k: nat, s: S): S
    requires k <= |requests|
  {
    if k == 0 then s else Finish(requests[k - 1], [Sequential(requests, k - 1, s)]).app
  }

  /** What request k answers when requests run one after the other. */
  function Answer<S>(requests: seq<Handler<S>>, k: nat, s: S): Settlement
    requires k < |requests|
  {
    Finish(requests[k], [Sequential(requests, k, s)]).outcome
  }

  // ---------------------------------------------------------------- the server

  datatype Machine<!S> = Machine(
    initial: S,
    app: S,
    requests: seq<Handler<S>>,
    loop: Loop,
    active: map<nat, seq<S>>,
    starts: seq<nat>)

  datatype Event<!S> = Arrive(handler: Handler<S>) | NextJob | Resume(k: nat)

  function Serialize<S>(m: Machine<S>, h: Handler<S>): Machine<S>
  {
    m.(loop := Enqueue(m.loop, |m.requests|), requests := m.requests + [h])
  }

  /** Calling the handler: a plain one settles the run at once, an asynchronous one runs to its first
      suspension and hands the run its promise to adopt. */
  function Start<S>(m: Machine<S>, k: nat, target: Name): Machine<S>
    requires k < |m.requests|
  {
    var h := m.requests[k];
    var begun := m.(starts := m.starts + [k]);
    var turn := Next(h, [m.app]);
    if !h.isAsync then begun.(app := turn.app, loop := Settle(m.loop, target, turn.outcome))
    else
      var called := Create(m.loop, Returned(k));
      match turn
      case Return(app, outcome) => begun.(app := app, loop := Adopting(Settle(called, Returned(k), outcome), target, k))
      case Suspend(app) => begun.(app := app, loop := Adopting(called, target, k), active := m.active[k := [m.app]])
  }

  function Adopting(l: Loop, target: Name, k: nat): Loop
  {
    l.(jobs := l.jobs + [Adopt(target, Returned(k))])
  }

  function RunJob<S>(m: Machine<S>): Machine<S>
    requires m.loop.jobs != []
  {
    var rest := Take(m.loop);
    match m.loop.jobs[0]
    case Adopt(target, thenable) => m.(loop := Then(rest, thenable, Reaction(Some(target), Forward)))
    case React(Reaction(target, action), argument) =>
      match action
      case Invoke(k) => if k < |m.requests| && target.Some? then Start(m.(loop := rest), k, target.value)
        else m.(loop := rest)
      case Discard => m.(loop := if target.Some? then Settle(rest, target.value, Fulfilled(Undefined)) else rest)
      case Forward => m.(loop := if target.Some? then Settle(rest, target.value, argument) else rest)
      case Respond(k) => m.(loop := rest.(responses := rest.responses + [Response(k, argument)]))
  }

  /** A suspended handler goes on; after its last turn its promise settles. */
  function Continue<S>(m: Machine<S>, k: nat): Machine<S>
    requires k < |m.requests| && k in m.active
  {
    var seen := m.active[k] + [m.app];
    match Next(m.requests[k], seen)
    case Return(app, outcome) => m.(app := app, active := m.active - {k}, loop := Settle(m.loop, Returned(k), outcome))
    case Suspend(app) => m.(app := app, active := m.active[k := seen])
  }

  predicate Enabled<S>(m: Machine<S>, e: Event<S>)
  {
    match e
    case Arrive(_) => true
    case NextJob => m.loop.jobs != []
    case Resume(k) => k < |m.requests| && k in m.active
  }

  function Step<S>(m: Machine<S>, e: Event<S>): Machine<S>
  {
    if !Enabled(m, e) then m
    else match e
      case Arrive(h) => Serialize(m, h)
      case NextJob => RunJob(m)
      case Resume(k) => Continue(m, k)
  }

  function Steps<S>(m: Machine<S>, events: seq<Event<S>>): Machine<S>
    decreases |events|
  {
    if events == [] then m else Steps(Step(m, events[0]), events[1..])
  }

  /** A new server: Promise.resolve() as its queue. */
  function New<S>(s: S): Machine<S>
  {
    Machine(s, s, [], Loop(Queue(0), map[Queue(0) := Settled(Fulfilled(Undefined))], [], []), map[], [])
  }
}
