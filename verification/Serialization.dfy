/** Every run of the serializer: one handler at a time, in order of arrival, answers as if run one after
    the other, and nobody left waiting. */
module Serialization {
  import opened PromiseChain
  import opened Serializer

  /** What running the requests one after the other would answer. */
  function PlanOf<S>(requests: seq<Handler<S>>, s: S): (plan: seq<Entry>)
    ensures |plan| == |requests|
  {
    seq(|requests|, j requires 0 <= j < |requests| => Entry(requests[j].isAsync, Answer(requests, j, s)))
  }

  function UpTo(k: nat): (s: seq<nat>)
    ensures |s| == k && forall j :: 0 <= j < k ==> s[j] == j
  {
    seq(k, j => j)
  }

  // How many requests have had their handler called.
  function Begun(d: nat, phase: Phase): nat
  {
    if phase.Idle? || phase.Ready? then d else d + 1
  }

  /** The states in which a handler's first n turns begin when nobody interferes. */
  function Trail<S>(h: Handler<S>, s: S, n: nat): (seen: seq<S>)
    requires n > 0
    ensures |seen| == n && seen[0] == s
  {
    if n == 1 then [s] else Trail(h, s, n - 1) + [Next(h, Trail(h, s, n - 1)).app]
  }

  // Its first n turns all suspend.
  predicate Going<S>(h: Handler<S>, s: S, n: nat)
    requires n > 0
  {
    Next(h, Trail(h, s, n)).Suspend? && (n > 1 ==> Going(h, s, n - 1))
  }

  predicate Within<S>(requests: seq<Handler<S>>, s: S, d: nat, phase: Phase)
  {
    && d <= |requests| && (phase.Idle? <==> d == |requests|)
    && (phase.Suspended? ==> 0 < phase.n && Going(requests[d], Sequential(requests, d, s), phase.n))
  }

  /** The shared state: whole requests, then the turns the suspended one has had. */
  function Progress<S>(requests: seq<Handler<S>>, s: S, d: nat, phase: Phase): S
    requires Within(requests, s, d, phase)
  {
    match phase
    case Idle => Sequential(requests, d, s)
    case Ready => Sequential(requests, d, s)
    case Suspended(n, _) => Next(requests[d], Trail(requests[d], Sequential(requests, d, s), n)).app
    case Finished(_) => Sequential(requests, d + 1, s)
    case Drained => Sequential(requests, d + 1, s)
  }

  /** Everything about a server follows from how many requests are through and how far the next one is. */
  ghost predicate At<S>(m: Machine<S>, d: nat, phase: Phase)
  {
    && Within(m.requests, m.initial, d, phase)
    && Chained(PlanOf(m.requests, m.initial), m.loop, d, phase)
    && m.active == (if phase.Suspended?
                    then map[d := Trail(m.requests[d], Sequential(m.requests, d, m.initial), phase.n)]
                    else map[])
    && m.starts == UpTo(Begun(d, phase))
    && m.app == Progress(m.requests, m.initial, d, phase)
  }

  // ---------------------------------------------------------------- handlers left alone

  // The turns a handler still takes.
  function Left<S>(h: Handler<S>, seen: seq<S>): (n: nat)
    requires seen != []
    ensures n > 0
    decreases Limit(h, seen[0]) + 1 - |seen|
  {
    1 + match Next(h, seen) case Suspend(app) => Left(h, seen + [app]) case Return(_, _) => 0
  }

  /** Going on from where it suspended, a handler ends as it would have from its start, one turn later. */
  lemma {:induction false} TrailFinishes<S>(h: Handler<S>, s: S, n: nat)
    requires n > 0 && Going(h, s, n)
    ensures Trail(h, s, n + 1) == Trail(h, s, n) + [Next(h, Trail(h, s, n)).app]
    ensures Finish(h, Trail(h, s, n + 1)) == Finish(h, [s])
    ensures Left(h, Trail(h, s, n)) == 1 + Left(h, Trail(h, s, n + 1))
  {
    if n > 1 {
      TrailFinishes(h, s, n - 1);
    }
  }

  // ---------------------------------------------------------------- steps

  lemma {:induction false} SequentialPrefix<S>(requests: seq<Handler<S>>, h: Handler<S>, k: nat, s: S)
    requires k <= |requests|
    ensures Sequential(requests + [h], k, s) == Sequential(requests, k, s)
  {
    if k > 0 {
      SequentialPrefix(requests, h, k - 1, s);
    }
  }

  lemma PlanGrows<S>(requests: seq<Handler<S>>, h: Handler<S>, s: S)
    ensures PlanOf(requests + [h], s) == PlanOf(requests, s) + [Entry(h.isAsync, Answer(requests + [h], |requests|, s))]
  {
    forall j | 0 <= j < |requests|
      ensures Answer(requests + [h], j, s) == Answer(requests, j, s)
    {
      SequentialPrefix(requests, h, j, s);
    }
  }

  /** One more request behind the others changes nothing for them. */
  lemma ProgressGrows<S>(requests: seq<Handler<S>>, h: Handler<S>, s: S, d: nat, phase: Phase, phase': Phase)
    requires Within(requests, s, d, phase) && phase' == if phase.Idle? then Ready else phase
    ensures Sequential(requests + [h], d, s) == Sequential(requests, d, s)
    ensures d < |requests| ==> (requests + [h])[d] == requests[d]
    ensures Within(requests + [h], s, d, phase')
      && Progress(requests + [h], s, d, phase') == Progress(requests, s, d, phase)
  {
    SequentialPrefix(requests, h, d, s);
    if d < |requests| {
      SequentialPrefix(requests, h, d + 1, s);
    }
  }

  lemma ArriveStep<S>(m: Machine<S>, d: nat, phase: Phase, h: Handler<S>) returns (phase': Phase)
    requires At(m, d, phase)
    ensures phase' == if phase.Idle? then Ready else phase
    ensures At(Serialize(m, h), d, phase')
  {
    phase' := if phase.Idle? then Ready else phase;
    var plan := PlanOf(m.requests, m.initial);
    var e := Entry(h.isAsync, Answer(m.requests + [h], |m.requests|, m.initial));
    PlanGrows(m.requests, h, m.initial);
    if phase.Idle? {
      EnqueueIdle(plan, m.loop, d, e);
    } else {
      EnqueueBehind(plan, m.loop, d, phase, e);
    }
    ProgressGrows(m.requests, h, m.initial, d, phase, phase');
  }

  lemma PlainCall<S>(m: Machine<S>, d: nat)
    requires At(m, d, Ready) && m.loop.jobs != [] && !Responding(m.loop.jobs[0]) && !m.requests[d].isAsync
    ensures At(RunJob(m), d, Drained) && Potential(RunJob(m), d, Drained) < Potential(m, d, Ready)
  {
    var plan := PlanOf(m.requests, m.initial);
    HeadJob(plan, m.loop, d, Ready);
    assert UpTo(d) + [d] == UpTo(d + 1);
    RunSettles(plan, m.loop, d, Ready);
  }

  lemma FinishingCall<S>(m: Machine<S>, d: nat)
    requires At(m, d, Ready) && m.loop.jobs != [] && !Responding(m.loop.jobs[0]) && m.requests[d].isAsync
    requires Next(m.requests[d], [m.app]).Return?
    ensures At(RunJob(m), d, Finished(false)) && Potential(RunJob(m), d, Finished(false)) < Potential(m, d, Ready)
  {
    var plan := PlanOf(m.requests, m.initial);
    HeadJob(plan, m.loop, d, Ready);
    assert UpTo(d) + [d] == UpTo(d + 1);
    CallFinishes(plan, m.loop, d);
  }

  lemma SuspendingCall<S>(m: Machine<S>, d: nat)
    requires At(m, d, Ready) && m.loop.jobs != [] && !Responding(m.loop.jobs[0]) && m.requests[d].isAsync
    requires Next(m.requests[d], [m.app]).Suspend?
    ensures At(RunJob(m), d, Suspended(1, false))
      && Potential(RunJob(m), d, Suspended(1, false)) < Potential(m, d, Ready)
  {
    var plan, h := PlanOf(m.requests, m.initial), m.requests[d];
    HeadJob(plan, m.loop, d, Ready);
    assert UpTo(d) + [d] == UpTo(d + 1);
    assert Trail(h, m.app, 1) == [m.app];
    CallSuspends(plan, m.loop, d, 1);
    TrailFinishes(h, m.app, 1);
  }

  lemma CallStep<S>(m: Machine<S>, d: nat) returns (phase': Phase)
    requires At(m, d, Ready) && m.loop.jobs != [] && !Responding(m.loop.jobs[0])
    ensures At(RunJob(m), d, phase') && Potential(RunJob(m), d, phase') < Potential(m, d, Ready)
  {
    if !m.requests[d].isAsync {
      PlainCall(m, d);
      phase' := Drained;
    } else if Next(m.requests[d], [m.app]).Return? {
      FinishingCall(m, d);
      phase' := Finished(false);
    } else {
      SuspendingCall(m, d);
      phase' := Suspended(1, false);
    }
  }

  lemma AdoptStep<S>(m: Machine<S>, d: nat, phase: Phase) returns (phase': Phase)
    requires At(m, d, phase) && m.loop.jobs != [] && !Responding(m.loop.jobs[0])
    requires phase.Suspended? || phase == Finished(false)
    ensures At(RunJob(m), d, phase') && Potential(RunJob(m), d, phase') < Potential(m, d, phase)
  {
    var plan := PlanOf(m.requests, m.initial);
    HeadJob(plan, m.loop, d, phase);
    if phase.Suspended? {
      AdoptPending(plan, m.loop, d, phase.n);
      phase' := Suspended(phase.n, true);
    } else {
      AdoptSettled(plan, m.loop, d);
      phase' := Finished(true);
    }
  }

  lemma ForwardStep<S>(m: Machine<S>, d: nat)
    requires At(m, d, Finished(true)) && m.loop.jobs != [] && !Responding(m.loop.jobs[0])
    ensures At(RunJob(m), d, Drained) && Potential(RunJob(m), d, Drained) < Potential(m, d, Finished(true))
  {
    var plan := PlanOf(m.requests, m.initial);
    HeadJob(plan, m.loop, d, Finished(true));
    RunSettles(plan, m.loop, d, Finished(true));
  }

  lemma DiscardStep<S>(m: Machine<S>, d: nat) returns (phase': Phase)
    requires At(m, d, Drained) && m.loop.jobs != [] && !Responding(m.loop.jobs[0])
    ensures At(RunJob(m), d + 1, phase') && Potential(RunJob(m), d + 1, phase') < Potential(m, d, Drained)
  {
    var plan := PlanOf(m.requests, m.initial);
    HeadJob(plan, m.loop, d, Drained);
    phase' := QueueAdvances(plan, m.loop, d);
  }

  lemma JobStep<S>(m: Machine<S>, d: nat, phase: Phase) returns (d': nat, phase': Phase)
    requires At(m, d, phase) && m.loop.jobs != []
    ensures At(RunJob(m), d', phase') && Potential(RunJob(m), d', phase') < Potential(m, d, phase)
  {
    d', phase' := d, phase;
    if Responding(m.loop.jobs[0]) {
      RespondNext(PlanOf(m.requests, m.initial), m.loop, d, phase);
    } else {
      HeadJob(PlanOf(m.requests, m.initial), m.loop, d, phase);
      match phase {
        case Ready => phase' := CallStep(m, d);
        case Suspended(_, _) => phase' := AdoptStep(m, d, phase);
        case Finished(adopted) =>
          if adopted {
            ForwardStep(m, d);
            phase' := Drained;
          } else {
            phase' := AdoptStep(m, d, phase);
          }
        case Drained =>
          phase' := DiscardStep(m, d);
          d' := d + 1;
      }
    }
  }

  lemma LastTurn<S>(m: Machine<S>, d: nat, n: nat, adopted: bool)
    requires At(m, d, Suspended(n, adopted)) && Next(m.requests[d], m.active[d] + [m.app]).Return?
    ensures At(Continue(m, d), d, Finished(adopted))
      && Potential(Continue(m, d), d, Finished(adopted)) < Potential(m, d, Suspended(n, adopted))
  {
    TrailFinishes(m.requests[d], Sequential(m.requests, d, m.initial), n);
    ReturnedSettles(PlanOf(m.requests, m.initial), m.loop, d, n, adopted);
  }

  lemma AnotherTurn<S>(m: Machine<S>, d: nat, n: nat, adopted: bool)
    requires At(m, d, Suspended(n, adopted)) && Next(m.requests[d], m.active[d] + [m.app]).Suspend?
    ensures At(Continue(m, d), d, Suspended(n + 1, adopted))
    ensures Potential(Continue(m, d), d, Suspended(n + 1, adopted)) < Potential(m, d, Suspended(n, adopted))
  {
    var h, s := m.requests[d], Sequential(m.requests, d, m.initial);
    TrailFinishes(h, s, n);
    TrailFinishes(h, s, n + 1);
    StillSuspended(PlanOf(m.requests, m.initial), m.loop, d, n, adopted);
  }

  lemma ResumeStep<S>(m: Machine<S>, d: nat, phase: Phase, k: nat) returns (phase': Phase)
    requires At(m, d, phase) && Enabled(m, Event<S>.Resume(k))
    ensures k == d && At(Continue(m, k), d, phase') && Potential(Continue(m, k), d, phase') < Potential(m, d, phase)
  {
    if Next(m.requests[d], m.active[d] + [m.app]).Return? {
      LastTurn(m, d, phase.n, phase.adopted);
      phase' := Finished(phase.adopted);
    } else {
      AnotherTurn(m, d, phase.n, phase.adopted);
      phase' := Suspended(phase.n + 1, phase.adopted);
    }
  }

  lemma StillSuspended(plan: seq<Entry>, l: Loop, d: nat, n: nat, adopted: bool)
    requires Chained(plan, l, d, Suspended(n, adopted))
    ensures Chained(plan, l, d, Suspended(n + 1, adopted))
  {
    forall p
      ensures Lookup(l.promises, p) == Shape(plan, d, Suspended(n + 1, adopted), p)
    {
      assert Lookup(l.promises, p) == Shape(plan, d, Suspended(n, adopted), p);
    }
  }

  // ---------------------------------------------------------------- how much is left to do

  /** Steps the requests from k on may still take. */
  function Ahead<S>(requests: seq<Handler<S>>, k: nat, s: S): nat
    decreases |requests| - k
  {
    if k >= |requests| then 0 else Left(requests[k], [Sequential(requests, k, s)]) + 7 + Ahead(requests, k + 1, s)
  }

  function Weight<S>(requests: seq<Handler<S>>, s: S, d: nat, phase: Phase): nat
    requires Within(requests, s, d, phase)
  {
    match phase
    case Idle => 0
    case Ready => Left(requests[d], [Sequential(requests, d, s)]) + 7
    case Suspended(n, adopted) =>
      Left(requests[d], Trail(requests[d], Sequential(requests, d, s), n + 1)) + if adopted then 3 else 7
    case Finished(adopted) => if adopted then 3 else 4
    case Drained => 1
  }

  function Potential<S>(m: Machine<S>, d: nat, phase: Phase): nat
    requires Within(m.requests, m.initial, d, phase)
  {
    Ahead(m.requests, d + 1, m.initial) + Weight(m.requests, m.initial, d, phase) + |Due(m.loop.jobs)|
  }

  // ---------------------------------------------------------------- runs

  /** A state some run leads to. */
  ghost predicate Reachable<S(!new)>(m: Machine<S>)
  {
    exists s: S, events: seq<Event<S>> :: m == Steps(New(s), events)
  }

  lemma NewAt<S>(s: S)
    ensures At(New(s), 0, Idle)
  {
    var m := New(s);
    forall p
      ensures Lookup(m.loop.promises, p) == Shape(PlanOf(m.requests, s), 0, Idle, p)
    {
    }
  }

  lemma StepAt<S>(m: Machine<S>, d: nat, phase: Phase, e: Event<S>) returns (d': nat, phase': Phase)
    requires At(m, d, phase)
    ensures At(Step(m, e), d', phase')
    ensures Enabled(m, e) && !e.Arrive? ==> Potential(Step(m, e), d', phase') < Potential(m, d, phase)
  {
    d', phase' := d, phase;
    if Enabled(m, e) {
      match e {
        case Arrive(h) => phase' := ArriveStep(m, d, phase, h);
        case NextJob => d', phase' := JobStep(m, d, phase);
        case Resume(k) => phase' := ResumeStep(m, d, phase, k);
      }
    }
  }

  lemma {:induction false} StepsAt<S>(m: Machine<S>, d: nat, phase: Phase, events: seq<Event<S>>)
    returns (d': nat, phase': Phase)
    requires At(m, d, phase)
    ensures At(Steps(m, events), d', phase')
    decreases |events|
  {
    d', phase' := d, phase;
    if events != [] {
      d', phase' := StepAt(m, d, phase, events[0]);
      d', phase' := StepsAt(Step(m, events[0]), d', phase', events[1..]);
    }
  }

  lemma ReachableAt<S(!new)>(m: Machine<S>) returns (d: nat, phase: Phase)
    requires Reachable(m)
    ensures At(m, d, phase)
  {
    var s: S, events: seq<Event<S>> :| m == Steps(New(s), events);
    NewAt(s);
    d, phase := StepsAt(New(s), 0, Idle, events);
  }

  /** In every reachable state at most one handler is active, and handlers were started in the order their
      requests arrived, each once; the active one is the latest started. */
  lemma OneAtATime<S(!new)>(m: Machine<S>)
    requires Reachable(m)
    ensures |m.active| <= 1
    ensures |m.starts| <= |m.requests| && m.starts == UpTo(|m.starts|)
    ensures forall k | k in m.active :: |m.starts| == k + 1
  {
    var d, phase := ReachableAt(m);
  }

  /** Answers come in order of arrival and are those of running the requests one after the other, whichever
      handlers fail; between handlers the shared state is the sequential one too. */
  lemma AnswersAreSequential<S(!new)>(m: Machine<S>, k: nat)
    requires Reachable(m) && k < |m.loop.responses|
    ensures |m.loop.responses| <= |m.requests|
    ensures m.loop.responses[k] == Response(k, Answer(m.requests, k, m.initial))
  {
    var d, phase := ReachableAt(m);
    var plan := PlanOf(m.requests, m.initial);
    assert (m.loop.responses + Due(m.loop.jobs))[k] == m.loop.responses[k];
  }

  lemma StateIsSequential<S(!new)>(m: Machine<S>)
    requires Reachable(m) && m.active == map[]
    ensures |m.starts| <= |m.requests| && m.app == Sequential(m.requests, |m.starts|, m.initial)
  {
    var d, phase := ReachableAt(m);
    assert phase.Suspended? ==> d in m.active;
  }

  ghost predicate Quiet<S>(m: Machine<S>)
  {
    m.loop.jobs == [] && m.active == map[]
  }

  /** When no job is left and no handler is suspended, every request has been answered. */
  lemma QuietIsAnswered<S(!new)>(m: Machine<S>)
    requires Reachable(m) && Quiet(m)
    ensures |m.loop.responses| == |m.requests| && m.app == Sequential(m.requests, |m.requests|, m.initial)
  {
    var d, phase := ReachableAt(m);
    assert phase.Suspended? ==> d in m.active;
    assert Chain(m.loop.jobs) == [];
    assert phase.Idle?;
    assert m.loop.responses + [] == m.loop.responses;
  }

  /** Otherwise something can happen: a job runs, or the active handler goes on. */
  lemma QuietOrEnabled<S(!new)>(m: Machine<S>)
    requires Reachable(m)
    ensures Quiet(m) || Enabled(m, NextJob) || exists k :: k in m.active && Enabled(m, Event<S>.Resume(k))
  {
    var d, phase := ReachableAt(m);
    if m.active != map[] {
      assert d in m.active && Enabled(m, Event<S>.Resume(d));
    }
  }

  ghost predicate Driven<S>(m: Machine<S>, events: seq<Event<S>>)
    decreases |events|
  {
    events == [] || (!events[0].Arrive? && Enabled(m, events[0]) && Driven(Step(m, events[0]), events[1..]))
  }

  lemma {:induction false} DrivenIsBounded<S>(m: Machine<S>, d: nat, phase: Phase, events: seq<Event<S>>)
    requires At(m, d, phase) && Driven(m, events)
    ensures |events| <= Potential(m, d, phase)
    decreases |events|
  {
    if events != [] {
      var d', phase' := StepAt(m, d, phase, events[0]);
      DrivenIsBounded(Step(m, events[0]), d', phase', events[1..]);
    }
  }

  /** Neither a job nor a suspended handler is left to go on. */
  ghost predicate Stuck<S>(m: Machine<S>)
  {
    !Enabled(m, Event<S>.NextJob) && forall k :: !Enabled(m, Event<S>.Resume(k))
  }

  lemma {:induction false} StepsAppend<S>(m: Machine<S>, a: seq<Event<S>>, b: seq<Event<S>>)
    ensures Steps(m, a + b) == Steps(Steps(m, a), b)
    decreases |a|
  {
    if a == [] {
      assert a + b == b;
    } else {
      assert (a + b)[0] == a[0] && (a + b)[1..] == a[1..] + b;
      StepsAppend(Step(m, a[0]), a[1..], b);
    }
  }

  lemma StaysReachable<S(!new)>(m: Machine<S>, events: seq<Event<S>>)
    requires Reachable(m)
    ensures Reachable(Steps(m, events))
  {
    var s: S, before: seq<Event<S>> :| m == Steps(New(s), before);
    StepsAppend(New(s), before, events);
  }

  lemma {:induction false} DrivenKeepsRequests<S>(m: Machine<S>, events: seq<Event<S>>)
    requires Driven(m, events)
    ensures Steps(m, events).requests == m.requests && Steps(m, events).initial == m.initial
    decreases |events|
  {
    if events != [] {
      DrivenKeepsRequests(Step(m, events[0]), events[1..]);
    }
  }

  lemma StuckIsAnswered<S(!new)>(m: Machine<S>, events: seq<Event<S>>)
    requires Reachable(m) && Driven(m, events) && Stuck(Steps(m, events))
    ensures |Steps(m, events).loop.responses| == |m.requests|
    ensures Steps(m, events).app == Sequential(m.requests, |m.requests|, m.initial)
  {
    StaysReachable(m, events);
    QuietOrEnabled(Steps(m, events));
    QuietIsAnswered(Steps(m, events));
    DrivenKeepsRequests(m, events);
  }

  /** Without further arrivals only boundedly many steps are possible, in any order, and a run of them after
      which none is left has answered every request and left the sequential state: whatever order jobs
      and suspended handlers go on in, all requests complete. */
  lemma AllComplete<S(!new)>(m: Machine<S>) returns (bound: nat)
    requires Reachable(m)
    ensures forall events: seq<Event<S>> :: Driven(m, events) ==> |events| <= bound
    ensures forall events: seq<Event<S>> | Driven(m, events) && Stuck(Steps(m, events)) :: Complete(m, events)
  {
    var d, phase := ReachableAt(m);
    bound := Potential(m, d, phase);
    forall events: seq<Event<S>> | Driven(m, events)
      ensures |events| <= bound
    {
      DrivenIsBounded(m, d, phase, events);
    }
    forall events: seq<Event<S>> | Driven(m, events) && Stuck(Steps(m, events))
      ensures Complete(m, events)
    {
      StuckIsAnswered(m, events);
    }
  }

  ghost predicate Complete<S>(m: Machine<S>, events: seq<Event<S>>)
  {
    var end := Steps(m, events);
    |end.loop.responses| == |m.requests| && end.app == Sequential(m.requests, |m.requests|, m.initial)
  }
}
