/** The server object: serialize reassigns its queue on every call, the engine runs one job at a time. */
module RequestServer {
  import opened Serializer
  import opened Wrappers

  class Server<S> {
    const initial: S
    var app: S
    var queue: Name
    var promises: map<Name, Promise>
    var jobs: seq<Job>
    var responses: seq<Response>
    var requests: seq<Handler<S>>
    var active: map<nat, seq<S>>
    var starts: seq<nat>

    ghost function LoopNow(): Loop
      reads this
    {
      Loop(queue, promises, jobs, responses)
    }

    ghost function Snapshot(): Machine<S>
      reads this
    {
      Machine(initial, app, requests, LoopNow(), active, starts)
    }

    constructor (s: S)
      ensures initial == s && Snapshot() == New(s)
    {
      initial, app := s, s;
      queue := Queue(0);
      promises := map[Queue(0) := Settled(Fulfilled(Undefined))];
      jobs, responses, requests, active, starts := [], [], [], map[], [];
    }

    method React(p: Name, r: Reaction)
      modifies this`promises, this`jobs
      ensures LoopNow() == Then(old(LoopNow()), p, r)
    {
      if p in promises {
        match promises[p] {
          case Pending(reactions) => promises := promises[p := Pending(reactions + [r])];
          case Settled(outcome) => jobs := jobs + [Job.React(r, outcome)];
        }
      }
    }

    /** Settles a pending promise and queues a job for each of its reactions, in order. */
    method SettlePromise(p: Name, outcome: Settlement)
      modifies this`promises, this`jobs
      ensures LoopNow() == Settle(old(LoopNow()), p, outcome)
    {
      if p in promises && promises[p].Pending? {
        var reactions := promises[p].reactions;
        promises := promises[p := Settled(outcome)];
        for i := 0 to |reactions|
          invariant promises == old(promises)[p := Settled(outcome)]
          invariant jobs + JobsFor(reactions[i..], outcome) == old(jobs) + JobsFor(reactions, outcome)
        {
          assert JobsFor(reactions[i..], outcome) == [Job.React(reactions[i], outcome)]
            + JobsFor(reactions[i + 1..], outcome) by {
            assert reactions[i..][1..] == reactions[i + 1..];
          }
          jobs := jobs + [Job.React(reactions[i], outcome)];
        }
      }
    }

    method Create(p: Name)
      modifies this`promises
      ensures LoopNow() == Serializer.Create(old(LoopNow()), p)
    {
      promises := promises[p := Pending([])];
    }

    /** Chains a run of the handler behind the present queue. The end of that run, whatever its outcome, is the
        queue from now on. */
    method Serialize(h: Handler<S>)
      modifies this
      ensures Snapshot() == Serializer.Serialize(old(Snapshot()), h)
      ensures queue == Queue(|old(requests)| + 1) && requests == old(requests) + [h]
    {
      var k := |requests|;
      Create(Run(k));
      React(queue, Reaction(Some(Run(k)), Invoke(k)));
      Create(Queue(k + 1));
      React(Run(k), Reaction(Some(Queue(k + 1)), Discard));
      queue := Queue(k + 1);
      React(Run(k), Reaction(None, Respond(k)));
      requests := requests + [h];
    }

    /** Calls the handler: a plain one settles the run, an asynchronous one hands it its promise. */
    method Start(k: nat, target: Name)
      requires k < |requests|
      modifies this
      ensures Snapshot() == Serializer.Start(old(Snapshot()), k, target)
    {
      var h, found := requests[k], app;
      starts := starts + [k];
      var turn := Next(h, [found]);
      app := turn.app;
      if !h.isAsync {
        SettlePromise(target, turn.outcome);
        return;
      }
      Create(Returned(k));
      match turn {
        case Return(_, outcome) => SettlePromise(Returned(k), outcome);
        case Suspend(_) => active := active[k := [found]];
      }
      jobs := jobs + [Adopt(target, Returned(k))];
    }

    /** Runs the next job; says whether there was one. */
    method RunNextJob() returns (ran: bool)
      modifies this
      ensures ran == Enabled(old(Snapshot()), Event<S>.NextJob)
      ensures Snapshot() == Step(old(Snapshot()), NextJob)
    {
      if jobs == [] {
        return false;
      }
      ran := true;
      var job := jobs[0];
      jobs := jobs[1..];
      match job {
        case Adopt(target, thenable) => React(thenable, Reaction(Some(target), Forward));
        case React(Reaction(target, action), argument) =>
          match action {
            case Invoke(k) =>
              if k < |requests| && target.Some? {
                Start(k, target.value);
              }
            case Discard =>
              if target.Some? {
                SettlePromise(target.value, Fulfilled(Undefined));
              }
            case Forward =>
              if target.Some? {
                SettlePromise(target.value, argument);
              }
            case Respond(k) => responses := responses + [Response(k, argument)];
          }
      }
    }

    /** A suspended handler goes on. */
    method Resume(k: nat) returns (went: bool)
      modifies this
      ensures went == Enabled(old(Snapshot()), Event<S>.Resume(k))
      ensures Snapshot() == Step(old(Snapshot()), Event<S>.Resume(k))
    {
      if k >= |requests| || k !in active {
        return false;
      }
      went := true;
      var seen := active[k] + [app];
      var turn := Next(requests[k], seen);
      app := turn.app;
      match turn {
        case Return(_, outcome) =>
          active := active - {k};
          SettlePromise(Returned(k), outcome);
        case Suspend(_) => active := active[k := seen];
      }
    }
  }
}
