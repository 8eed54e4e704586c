/** Where the chain of promises can be, and how each promise operation moves it. */
module PromiseChain {
  import opened Serializer
  import opened Wrappers

  /** What the chain needs to know of a request: how its handler returns, and what it will answer. */
  datatype Entry = Entry(isAsync: bool, answer: Settlement)

  /** How far the request at the head of the chain has come. */
  datatype Phase =
    | Idle
    | Ready                            // its handler is about to be called
    | Suspended(n: nat, adopted: bool) // its handler has had n turns
    | Finished(adopted: bool)          // its handler's promise is settled, its run is not
    | Drained                          // its run is settled, the queue behind it is not

  predicate Fits(plan: seq<Entry>, d: nat, phase: Phase)
  {
    && d <= |plan| && (phase.Idle? <==> d == |plan|)
    && (phase.Suspended? || phase.Finished? ==> plan[d].isAsync)
  }

  /** The promise a name stands for when d requests are through and the next is in a phase. */
  function Shape(plan: seq<Entry>, d: nat, phase: Phase, p: Name): Option<Promise>
    requires Fits(plan, d, phase)
  {
    var n := |plan|;
    match p
    case Queue(j) =>
      if j > n then None
      else if j <= d then Some(Settled(Fulfilled(Undefined)))
      else if j == n then Some(Pending([]))
      else Some(Pending([Reaction(Some(Run(j)), Invoke(j))]))
    case Run(j) =>
      if j >= n then None
      else if j < d || (j == d && phase.Drained?) then Some(Settled(plan[j].answer))
      else Some(Pending([Reaction(Some(Queue(j + 1)), Discard), Reaction(None, Respond(j))]))
    case Returned(j) =>
      if j >= n || j > d || !plan[j].isAsync || (j == d && phase.Ready?) then None
      else if j == d && phase.Suspended?
        then Some(Pending(if phase.adopted then [Reaction(Some(Run(d)), Forward)] else []))
      else Some(Settled(plan[j].answer))
  }

  /** The one job that moves the chain, if its next move is a job. */
  function ChainJob(plan: seq<Entry>, d: nat, phase: Phase): seq<Job>
    requires Fits(plan, d, phase)
  {
    match phase
    case Idle => []
    case Ready => [React(Reaction(Some(Run(d)), Invoke(d)), Fulfilled(Undefined))]
    case Suspended(_, adopted) => if adopted then [] else [Adopt(Run(d), Returned(d))]
    case Finished(adopted) =>
      if adopted then [React(Reaction(Some(Run(d)), Forward), plan[d].answer)] else [Adopt(Run(d), Returned(d))]
    case Drained => [React(Reaction(Some(Queue(d + 1)), Discard), plan[d].answer)]
  }

  predicate Responding(j: Job)
  {
    j.React? && j.reaction.action.Respond?
  }

  // The jobs that move the chain, and the answers on their way out.
  function Chain(jobs: seq<Job>): seq<Job>
  {
    if jobs == [] then []
    else if Responding(jobs[0]) then Chain(jobs[1..])
    else [jobs[0]] + Chain(jobs[1..])
  }

  function Due(jobs: seq<Job>): seq<Response>
  {
    if jobs == [] then []
    else if Responding(jobs[0]) then [Response(jobs[0].reaction.action.k, jobs[0].argument)] + Due(jobs[1..])
    else Due(jobs[1..])
  }

  /** The answers of the first k requests, in order. */
  function Answers(plan: seq<Entry>, k: nat): (rs: seq<Response>)
    requires k <= |plan|
    ensures |rs| == k
  {
    seq(k, j requires 0 <= j < k => Response(j, plan[j].answer))
  }

  function Answered(d: nat, phase: Phase): nat
  {
    if phase.Drained? then d + 1 else d
  }

  ghost predicate Shaped(plan: seq<Entry>, promises: map<Name, Promise>, d: nat, phase: Phase)
    requires Fits(plan, d, phase)
  {
    forall p :: Lookup(promises, p) == Shape(plan, d, phase, p)
  }

  /** The whole loop follows from how many requests are through and how far the next one is. */
  ghost predicate Chained(plan: seq<Entry>, l: Loop, d: nat, phase: Phase)
  {
    && Fits(plan, d, phase)
    && l.queue == Queue(|plan|)
    && Shaped(plan, l.promises, d, phase)
    && Chain(l.jobs) == ChainJob(plan, d, phase)
    && l.responses + Due(l.jobs) == Answers(plan, Answered(d, phase))
  }

  // ---------------------------------------------------------------- job lists

  lemma {:induction false} ChainAppend(jobs: seq<Job>, more: seq<Job>)
    ensures Chain(jobs + more) == Chain(jobs) + Chain(more)
  {
    var all := jobs + more;
    if jobs == [] {
      assert all == more;
    } else {
      ChainAppend(jobs[1..], more);
      assert all[1..] == jobs[1..] + more && all[0] == jobs[0];
      Associates([jobs[0]], Chain(jobs[1..]), Chain(more));
    }
  }

  lemma {:induction false} DueAppend(jobs: seq<Job>, more: seq<Job>)
    ensures Due(jobs + more) == Due(jobs) + Due(more)
  {
    var all := jobs + more;
    if jobs == [] {
      assert all == more;
    } else {
      DueAppend(jobs[1..], more);
      assert all[1..] == jobs[1..] + more && all[0] == jobs[0];
      if Responding(jobs[0]) {
        Associates([Response(jobs[0].reaction.action.k, jobs[0].argument)], Due(jobs[1..]), Due(more));
      }
    }
  }

  lemma JobsAppend(jobs: seq<Job>, more: seq<Job>)
    ensures Chain(jobs + more) == Chain(jobs) + Chain(more)
    ensures Due(jobs + more) == Due(jobs) + Due(more)
  {
    ChainAppend(jobs, more);
    DueAppend(jobs, more);
  }

  lemma OneJob(r: Reaction, outcome: Settlement)
    ensures JobsFor([r], outcome) == [React(r, outcome)]
    ensures Chain([React(r, outcome)]) == if r.action.Respond? then [] else [React(r, outcome)]
    ensures Due([React(r, outcome)]) == if r.action.Respond? then [Response(r.action.k, outcome)] else []
  {
  }

  lemma OneAdoption(target: Name, thenable: Name)
    ensures Chain([Adopt(target, thenable)]) == [Adopt(target, thenable)] && Due([Adopt(target, thenable)]) == []
  {
  }

  /** The jobs a settled run leaves: its queue moves on, its caller gets the answer. */
  lemma RunJobs(d: nat, outcome: Settlement)
    ensures var js := JobsFor([Reaction(Some(Queue(d + 1)), Discard), Reaction(None, Respond(d))], outcome);
      Chain(js) == [React(Reaction(Some(Queue(d + 1)), Discard), outcome)] && Due(js) == [Response(d, outcome)]
  {
    var first, second := Reaction(Some(Queue(d + 1)), Discard), Reaction(None, Respond(d));
    OneJob(first, outcome);
    OneJob(second, outcome);
    assert [first, second][1..] == [second];
    JobsAppend([React(first, outcome)], [React(second, outcome)]);
  }

  /** The next job is an answer on its way out, or the one that moves the chain. */
  lemma HeadJob(plan: seq<Entry>, l: Loop, d: nat, phase: Phase)
    requires Chained(plan, l, d, phase) && l.jobs != [] && !Responding(l.jobs[0])
    ensures ChainJob(plan, d, phase) == [l.jobs[0]] && Chain(l.jobs[1..]) == [] && Due(l.jobs[1..]) == Due(l.jobs)
  {
    assert Chain(l.jobs) == [l.jobs[0]] + Chain(l.jobs[1..]);
  }

  // ---------------------------------------------------------------- arrival

  function RunPromise(n: nat): Promise
  {
    Pending([Reaction(Some(Queue(n + 1)), Discard), Reaction(None, Respond(n))])
  }

  /** What the two later reactions make of the promises, once the first is registered. */
  lemma Registered(l: Loop, n: nat)
    requires Lookup(l.promises, Run(n)) == Some(Pending([]))
    ensures var chained := Then(Create(l, Queue(n + 1)), Run(n), Reaction(Some(Queue(n + 1)), Discard));
      Then(chained.(queue := Queue(n + 1)), Run(n), Reaction(None, Respond(n)))
        == l.(queue := Queue(n + 1), promises := l.promises[Run(n) := RunPromise(n)][Queue(n + 1) := Pending([])])
  {
    var first, second := Reaction(Some(Queue(n + 1)), Discard), Reaction(None, Respond(n));
    assert [] + [first] == [first] && [first] + [second] == [first, second];
    var created := Create(l, Queue(n + 1));
    assert Lookup(created.promises, Run(n)) == Some(Pending([]));
    var chained := Then(created, Run(n), first);
    assert Lookup(chained.promises, Run(n)) == Some(Pending([first]));
    assert l.promises[Queue(n + 1) := Pending([])][Run(n) := Pending([first])][Run(n) := RunPromise(n)]
        == l.promises[Run(n) := RunPromise(n)][Queue(n + 1) := Pending([])];
  }

  lemma IdleShape(plan: seq<Entry>, promises: map<Name, Promise>, d: nat, e: Entry)
    requires d == |plan| && Shaped(plan, promises, d, Idle)
    ensures Lookup(promises, Queue(d)) == Some(Settled(Fulfilled(Undefined)))
    ensures Shaped(plan + [e], promises[Run(d) := RunPromise(d)][Queue(d + 1) := Pending([])], d, Ready)
  {
    assert Lookup(promises, Queue(d)) == Shape(plan, d, Idle, Queue(d));
    var promises' := promises[Run(d) := RunPromise(d)][Queue(d + 1) := Pending([])];
    forall p
      ensures Lookup(promises', p) == Shape(plan + [e], d, Ready, p)
    {
      assert Lookup(promises, p) == Shape(plan, d, Idle, p);
    }
  }

  lemma EnqueueIdle(plan: seq<Entry>, l: Loop, d: nat, e: Entry)
    requires Chained(plan, l, d, Idle)
    ensures Chained(plan + [e], Enqueue(l, |plan|), d, Ready) && Due(Enqueue(l, |plan|).jobs) == Due(l.jobs)
  {
    var l' := Enqueue(l, d);
    var r := Reaction(Some(Run(d)), Invoke(d));
    IdleShape(plan, l.promises, d, e);
    Registered(Then(Create(l, Run(d)), l.queue, r), d);
    assert l'.jobs == l.jobs + [React(r, Fulfilled(Undefined))];
    JobsAppend(l.jobs, [React(r, Fulfilled(Undefined))]);
    OneJob(r, Fulfilled(Undefined));
    assert Answers(plan + [e], d) == Answers(plan, d);
  }

  lemma BehindShape(plan: seq<Entry>, promises: map<Name, Promise>, d: nat, phase: Phase, e: Entry)
    requires Fits(plan, d, phase) && Shaped(plan, promises, d, phase) && !phase.Idle?
    ensures var n := |plan|; Lookup(promises, Queue(n)) == Some(Pending([]))
    ensures var n, r := |plan|, Reaction(Some(Run(|plan|)), Invoke(|plan|));
      Shaped(plan + [e], promises[Run(n) := RunPromise(n)][Queue(n) := Pending([r])][Queue(n + 1) := Pending([])], d,
             phase)
  {
    var n, r := |plan|, Reaction(Some(Run(|plan|)), Invoke(|plan|));
    assert Lookup(promises, Queue(n)) == Shape(plan, d, phase, Queue(n));
    var promises' := promises[Run(n) := RunPromise(n)][Queue(n) := Pending([r])][Queue(n + 1) := Pending([])];
    forall p
      ensures Lookup(promises', p) == Shape(plan + [e], d, phase, p)
    {
      assert Lookup(promises, p) == Shape(plan, d, phase, p);
    }
  }

  lemma EnqueueBehind(plan: seq<Entry>, l: Loop, d: nat, phase: Phase, e: Entry)
    requires Chained(plan, l, d, phase) && !phase.Idle?
    ensures Chained(plan + [e], Enqueue(l, |plan|), d, phase) && Enqueue(l, |plan|).jobs == l.jobs
  {
    var n, l' := |plan|, Enqueue(l, |plan|);
    var r := Reaction(Some(Run(n)), Invoke(n));
    BehindShape(plan, l.promises, d, phase, e);
    assert [] + [r] == [r];
    Registered(Then(Create(l, Run(n)), l.queue, r), n);
    assert l'.promises == l.promises[Run(n) := RunPromise(n)][Queue(n) := Pending([r])][Queue(n + 1) := Pending([])];
    assert Answers(plan + [e], Answered(d, phase)) == Answers(plan, Answered(d, phase));
  }

  // ---------------------------------------------------------------- jobs

  lemma RespondNext(plan: seq<Entry>, l: Loop, d: nat, phase: Phase)
    requires Chained(plan, l, d, phase) && l.jobs != [] && Responding(l.jobs[0])
    ensures var r := Response(l.jobs[0].reaction.action.k, l.jobs[0].argument);
      Chained(plan, Take(l).(responses := l.responses + [r]), d, phase)
    ensures |Due(Take(l).jobs)| + 1 == |Due(l.jobs)|
  {
    var r := Response(l.jobs[0].reaction.action.k, l.jobs[0].argument);
    assert Due(l.jobs) == [r] + Due(l.jobs[1..]);
    assert (l.responses + [r]) + Due(l.jobs[1..]) == l.responses + Due(l.jobs);
  }

  lemma RunShape(plan: seq<Entry>, promises: map<Name, Promise>, d: nat, phase: Phase)
    requires Fits(plan, d, phase) && !phase.Idle? && Shaped(plan, promises, d, phase)
    requires phase == if plan[d].isAsync then Finished(true) else Ready
    ensures Lookup(promises, Run(d)) == Some(RunPromise(d))
    ensures Shaped(plan, promises[Run(d) := Settled(plan[d].answer)], d, Drained)
  {
    assert Lookup(promises, Run(d)) == Shape(plan, d, phase, Run(d));
    var promises' := promises[Run(d) := Settled(plan[d].answer)];
    forall p
      ensures Lookup(promises', p) == Shape(plan, d, Drained, p)
    {
      assert Lookup(promises, p) == Shape(plan, d, phase, p);
    }
  }

  /** The run of the request at the head settles with its answer. */
  lemma RunSettles(plan: seq<Entry>, l: Loop, d: nat, phase: Phase)
    requires Chained(plan, l, d, phase) && !phase.Idle? && l.jobs != [] && !Responding(l.jobs[0])
    requires phase == if plan[d].isAsync then Finished(true) else Ready
    ensures var l' := Settle(Take(l), Run(d), plan[d].answer);
      Chained(plan, l', d, Drained) && |Due(l'.jobs)| == |Due(l.jobs)| + 1
  {
    HeadJob(plan, l, d, phase);
    var answer := plan[d].answer;
    RunShape(plan, l.promises, d, phase);
    RunJobs(d, answer);
    JobsAppend(l.jobs[1..], JobsFor(RunPromise(d).reactions, answer));
    assert Answers(plan, d + 1) == Answers(plan, d) + [Response(d, answer)];
  }

  /** An asynchronous handler is called and suspends. */
  lemma CallSuspends(plan: seq<Entry>, l: Loop, d: nat, n: nat)
    requires Chained(plan, l, d, Ready) && l.jobs != [] && !Responding(l.jobs[0]) && plan[d].isAsync
    ensures var l' := Adopting(Create(Take(l), Returned(d)), Run(d), d);
      Chained(plan, l', d, Suspended(n, false)) && Due(l'.jobs) == Due(l.jobs)
  {
    HeadJob(plan, l, d, Ready);
    var l' := Adopting(Create(Take(l), Returned(d)), Run(d), d);
    JobsAppend(l.jobs[1..], [Adopt(Run(d), Returned(d))]);
    OneAdoption(Run(d), Returned(d));
    forall p
      ensures Lookup(l'.promises, p) == Shape(plan, d, Suspended(n, false), p)
    {
      assert Lookup(l.promises, p) == Shape(plan, d, Ready, p);
    }
  }

  /** An asynchronous handler is called and is done before it ever suspends. */
  lemma CallFinishes(plan: seq<Entry>, l: Loop, d: nat)
    requires Chained(plan, l, d, Ready) && l.jobs != [] && !Responding(l.jobs[0]) && plan[d].isAsync
    ensures var l' := Adopting(Settle(Create(Take(l), Returned(d)), Returned(d), plan[d].answer), Run(d), d);
      Chained(plan, l', d, Finished(false)) && Due(l'.jobs) == Due(l.jobs)
  {
    HeadJob(plan, l, d, Ready);
    var settled := Settle(Create(Take(l), Returned(d)), Returned(d), plan[d].answer);
    var l' := Adopting(settled, Run(d), d);
    assert settled.jobs == l.jobs[1..];
    JobsAppend(l.jobs[1..], [Adopt(Run(d), Returned(d))]);
    OneAdoption(Run(d), Returned(d));
    forall p
      ensures Lookup(l'.promises, p) == Shape(plan, d, Finished(false), p)
    {
      assert Lookup(l.promises, p) == Shape(plan, d, Ready, p);
    }
  }

  /** The run takes up a promise that is still pending. */
  lemma AdoptPending(plan: seq<Entry>, l: Loop, d: nat, n: nat)
    requires Chained(plan, l, d, Suspended(n, false)) && l.jobs != [] && !Responding(l.jobs[0])
    ensures var l' := Then(Take(l), Returned(d), Reaction(Some(Run(d)), Forward));
      Chained(plan, l', d, Suspended(n, true)) && Due(l'.jobs) == Due(l.jobs)
  {
    HeadJob(plan, l, d, Suspended(n, false));
    var r := Reaction(Some(Run(d)), Forward);
    var l' := Then(Take(l), Returned(d), r);
    assert Lookup(l.promises, Returned(d)) == Shape(plan, d, Suspended(n, false), Returned(d));
    assert [] + [r] == [r];
    assert l'.promises == l.promises[Returned(d) := Pending([r])];
    forall p
      ensures Lookup(l'.promises, p) == Shape(plan, d, Suspended(n, true), p)
    {
      assert Lookup(l.promises, p) == Shape(plan, d, Suspended(n, false), p);
    }
  }

  /** The run takes up a promise that has settled. */
  lemma AdoptSettled(plan: seq<Entry>, l: Loop, d: nat)
    requires Chained(plan, l, d, Finished(false)) && l.jobs != [] && !Responding(l.jobs[0])
    ensures var l' := Then(Take(l), Returned(d), Reaction(Some(Run(d)), Forward));
      Chained(plan, l', d, Finished(true)) && Due(l'.jobs) == Due(l.jobs)
  {
    HeadJob(plan, l, d, Finished(false));
    var r, answer := Reaction(Some(Run(d)), Forward), plan[d].answer;
    var l' := Then(Take(l), Returned(d), r);
    assert Lookup(l.promises, Returned(d)) == Shape(plan, d, Finished(false), Returned(d));
    assert l'.promises == l.promises && l'.jobs == l.jobs[1..] + [React(r, answer)];
    JobsAppend(l.jobs[1..], [React(r, answer)]);
    OneJob(r, answer);
    forall p
      ensures Lookup(l'.promises, p) == Shape(plan, d, Finished(true), p)
    {
      assert Lookup(l.promises, p) == Shape(plan, d, Finished(false), p);
    }
  }

  lemma AdvanceShape(plan: seq<Entry>, promises: map<Name, Promise>, d: nat, phase: Phase)
    requires Fits(plan, d, Drained) && Shaped(plan, promises, d, Drained)
    requires phase == if d + 1 == |plan| then Idle else Ready
    ensures Lookup(promises, Queue(d + 1)) == Some(Pending(Waiting(plan, d + 1)))
    ensures Shaped(plan, promises[Queue(d + 1) := Settled(Fulfilled(Undefined))], d + 1, phase)
  {
    assert Lookup(promises, Queue(d + 1)) == Shape(plan, d, Drained, Queue(d + 1));
    var promises' := promises[Queue(d + 1) := Settled(Fulfilled(Undefined))];
    forall p
      ensures Lookup(promises', p) == Shape(plan, d + 1, phase, p)
    {
      assert Lookup(promises, p) == Shape(plan, d, Drained, p);
    }
  }

  // What waits on the queue before request j.
  function Waiting(plan: seq<Entry>, j: nat): seq<Reaction>
  {
    if j < |plan| then [Reaction(Some(Run(j)), Invoke(j))] else []
  }

  /** The queue behind a settled run settles, whatever the run's outcome, and the next request is up. */
  lemma QueueAdvances(plan: seq<Entry>, l: Loop, d: nat) returns (phase: Phase)
    requires Chained(plan, l, d, Drained) && l.jobs != [] && !Responding(l.jobs[0])
    ensures phase == if d + 1 == |plan| then Idle else Ready
    ensures var l' := Settle(Take(l), Queue(d + 1), Fulfilled(Undefined));
      Chained(plan, l', d + 1, phase) && Due(l'.jobs) == Due(l.jobs)
  {
    HeadJob(plan, l, d, Drained);
    phase := if d + 1 == |plan| then Idle else Ready;
    AdvanceShape(plan, l.promises, d, phase);
    OneJob(Reaction(Some(Run(d + 1)), Invoke(d + 1)), Fulfilled(Undefined));
    JobsAppend(l.jobs[1..], JobsFor(Waiting(plan, d + 1), Fulfilled(Undefined)));
  }

  /** A suspended handler's promise settles. */
  lemma ReturnedSettles(plan: seq<Entry>, l: Loop, d: nat, n: nat, adopted: bool)
    requires Chained(plan, l, d, Suspended(n, adopted))
    ensures var l' := Settle(l, Returned(d), plan[d].answer);
      Chained(plan, l', d, Finished(adopted)) && Due(l'.jobs) == Due(l.jobs)
  {
    var r, answer := Reaction(Some(Run(d)), Forward), plan[d].answer;
    var l' := Settle(l, Returned(d), answer);
    assert Lookup(l.promises, Returned(d)) == Shape(plan, d, Suspended(n, adopted), Returned(d));
    OneJob(r, answer);
    JobsAppend(l.jobs, JobsFor(if adopted then [r] else [], answer));
    assert l'.promises == l.promises[Returned(d) := Settled(answer)];
    forall p
      ensures Lookup(l'.promises, p) == Shape(plan, d, Finished(adopted), p)
    {
      assert Lookup(l.promises, p) == Shape(plan, d, Suspended(n, adopted), p);
    }
  }
}
