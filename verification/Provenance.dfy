/** Where every entry of a registration's log comes from: the step it fulfils, the request that step makes, and the
    answers of the services that were asked; and why a run that stops short stops. */
module Provenance {
  import opened Bytes
  import opened Registration
  import opened Wrappers

  // ---------------------------------------------------------------- what is to do

  /** The steps a command still has to submit, up to a stage, when the file names these as completed. */
  function Todo(command: string, completed: string, stage: nat): string
  {
    (if stage >= 1 && 'r' in command && 'r' !in completed then "r" else "")
      + (if stage >= 2 && 'R' in command && 'R' !in completed then "R" else "")
      + (if stage >= 3 && 'a' in command && 'a' !in completed then "a" else "")
      + (if stage >= 4 && 'p' in command then "p" else "")
  }

  /** The request a step makes after `log`, in a run that found `saved` in its file and the log `base` long. */
  function Expected(v: Services, command: string, given: Word, saved: Progress, base: nat, step: char,
                    log: seq<Entry>): Request
  {
    match step
    // a machine the registry knows is not registered again: it gets a fresh attestation
    case 'r' => if v.registered(log) then RequestAttestation else PreRegister
    case 'R' => RequestAttestation
    case 'a' => RequestAvailability(
      if |log| > base then log[|log| - 1].id
      else if 'r' in command || 'R' in command then saved.attestation else 0)
    case _ => ToProduction(
      if 'a' !in command then given
      else if 'a' !in saved.completed && |log| > base then log[|log| - 1].id
      else saved.instruction)
  }

  /** The checks before a step's request: the signing policy, the proof. */
  predicate Permitted(v: Services, step: char, log: seq<Entry>, request: Request)
  {
    && (step == 'a' ==> v.consistent(log))
    && (request.ToProduction? ==> v.proof(log, request.instruction))
  }

  /** The entry at a position is a step's request, permitted and accepted after what was before it. */
  predicate Submitted(v: Services, command: string, given: Word, saved: Progress, base: nat, step: char,
                      log: seq<Entry>, at: nat)
    requires at < |log|
  {
    && log[at].request == Expected(v, command, given, saved, base, step, log[..at])
    && v.submit(log[..at], log[at].request) == Some(log[at].id)
    && Permitted(v, step, log[..at], log[at].request)
  }

  /** Since the run began, just these steps were submitted, one entry each, in this order. */
  ghost predicate Made(v: Services, command: string, given: Word, saved: Progress, base: seq<Entry>, log: seq<Entry>,
                       steps: string)
  {
    && base <= log && |log| == |base| + |steps|
    && forall k :: 0 <= k < |steps| ==> Submitted(v, command, given, saved, |base|, steps[k], log, |base| + k)
  }

  /** The reason a step was not submitted after `log`. */
  predicate Refused(v: Services, command: string, given: Word, saved: Progress, base: nat, step: char, log: seq<Entry>,
                    reason: Reason)
  {
    var request := Expected(v, command, given, saved, base, step, log);
    match reason
    case StateUnreadable => false
    case PolicyInconsistent => step == 'a' && !v.consistent(log)
    case ProofUnavailable => request.ToProduction? && !v.proof(log, request.instruction)
    case Rejected => Permitted(v, step, log, request) && v.submit(log, request) == None
  }

  /** How a run ends after these steps: with nothing left to do, in a crash after a save, or with the next step
      refused. One that submitted nothing leaves the file alone. */
  ghost predicate EndsAfter(v: Services, command: string, given: Word, saved: Progress, base: seq<Entry>, disk: Disk,
                            survives: Option<nat>, s: Status, steps: string)
  {
    var todo := Todo(command, saved.completed, 4);
    && s.Stopped? && !s.disk.Unreadable?
    && steps <= todo && Made(v, command, given, saved, base, s.log, steps)
    && (steps == "" && !s.end.Completed? ==> s.disk == disk)
    && match s.end
       case Completed => steps == todo && s.disk == Absent
       case Crashed => survives.Some? && steps != "" && v.saves(s.log)
       case Failed(reason) =>
         |steps| < |todo| && Refused(v, command, given, saved, |base|, todo[|steps|], s.log, reason)
  }

  // ---------------------------------------------------------------- one run, step by step

  /** Between two steps: those to do so far are submitted, the later ones stand as in the file. */
  ghost predicate Going(v: Services, command: string, given: Word, saved: Progress, base: seq<Entry>, disk: Disk,
                        survives: Option<nat>, p: Process, stage: nat)
  {
    && Made(v, command, given, saved, base, p.log, Todo(command, saved.completed, stage))
    && !p.disk.Unreadable? && (p.log == base ==> p.disk == disk)
    && (p.survives.Some? ==> survives.Some?)
    && (stage < 2 ==> ('R' in p.progress.completed <==> 'R' in saved.completed))
    && (stage < 3 ==>
          && ('a' in p.progress.completed <==> 'a' in saved.completed)
          && p.progress.instruction == saved.instruction
          && p.progress.attestation == if |p.log| > |base| then p.log[|p.log| - 1].id else saved.attestation)
  }

  lemma MadeNext(v: Services, command: string, given: Word, saved: Progress, base: seq<Entry>, log: seq<Entry>,
                 steps: string, step: char, e: Entry)
    requires Made(v, command, given, saved, base, log, steps)
    requires e.request == Expected(v, command, given, saved, |base|, step, log)
    requires Permitted(v, step, log, e.request) && v.submit(log, e.request) == Some(e.id)
    ensures Made(v, command, given, saved, base, log + [e], steps + [step])
  {
    var log', steps' := log + [e], steps + [step];
    forall k | 0 <= k < |steps'|
      ensures Submitted(v, command, given, saved, |base|, steps'[k], log', |base| + k)
    {
      assert log'[..|base| + k] == log[..|base| + k];
      if k < |steps| {
        assert Submitted(v, command, given, saved, |base|, steps[k], log, |base| + k);
      } else {
        assert log[..|base| + k] == log;
      }
    }
  }

  lemma TodoGrows(command: string, completed: string, stage: nat)
    requires stage < 4
    ensures Todo(command, completed, stage) <= Todo(command, completed, 4)
    ensures Todo(command, completed, stage + 1) <= Todo(command, completed, 4)
  {
  }

  // The step at a stage, if it is to do.
  lemma TodoStep(command: string, completed: string, stage: nat)
    requires stage < 4
    ensures var step := "rRap"[stage];
      Todo(command, completed, stage + 1) == Todo(command, completed, stage)
        + if step in command && (stage == 3 || step !in completed) then [step] else []
  {
  }

  lemma RefusalEnds(v: Services, command: string, given: Word, saved: Progress, base: seq<Entry>, disk: Disk,
                    survives: Option<nat>, p: Process, stage: nat, step: char, reason: Reason)
    requires stage < 4 && Going(v, command, given, saved, base, disk, survives, p, stage)
    requires Todo(command, saved.completed, stage + 1) == Todo(command, saved.completed, stage) + [step]
    requires Refused(v, command, given, saved, |base|, step, p.log, reason)
    ensures EndsAfter(v, command, given, saved, base, disk, survives, Stop(p, Failed(reason)),
                      Todo(command, saved.completed, stage))
  {
    TodoGrows(command, saved.completed, stage);
    var todo := Todo(command, saved.completed, 4);
    assert todo[|Todo(command, saved.completed, stage)|] == step;
  }

  lemma SaveGoes(v: Services, command: string, given: Word, saved: Progress, base: seq<Entry>, disk: Disk,
                 survives: Option<nat>, n: Process, stage: nat)
    requires stage < 4 && Going(v, command, given, saved, base, disk, survives, n, stage) && base != n.log
    ensures var s := Save(v, n);
      if s.Running? then
        && Going(v, command, given, saved, base, disk, survives, s.process, stage)
        && s.process == n.(disk := s.process.disk, survives := s.process.survives)
      else s.end.Crashed? && EndsAfter(v, command, given, saved, base, disk, survives, s,
                                       Todo(command, saved.completed, stage))
  {
    TodoGrows(command, saved.completed, stage);
  }

  lemma PreRegisterGoes(v: Services, command: string, given: Word, saved: Progress, base: seq<Entry>, disk: Disk,
                        survives: Option<nat>, p: Process)
    returns (steps: string)
    requires Going(v, command, given, saved, base, disk, survives, p, 0) && p.progress == saved && p.attestation == 0
    ensures var s := StepPreRegister(v, command, p);
      if s.Running? then
        && Going(v, command, given, saved, base, disk, survives, s.process, 1)
        && s.process.attestation == (if 'r' in command then s.process.progress.attestation else 0)
      else EndsAfter(v, command, given, saved, base, disk, survives, s, steps)
  {
    TodoStep(command, saved.completed, 0);
    steps := Todo(command, saved.completed, 0);
    if 'r' in command && 'r' !in saved.completed {
      var request := Expected(v, command, given, saved, |base|, 'r', p.log);
      match v.submit(p.log, request) {
        case None => RefusalEnds(v, command, given, saved, base, disk, survives, p, 0, 'r', Rejected);
        case Some(id) =>
          MadeNext(v, command, given, saved, base, p.log, "", 'r', Entry(request, id));
          var noted := Note(p, 'r', request, id);
          var n := noted.(attestation := id, progress := noted.progress.(attestation := id));
          steps := Todo(command, saved.completed, 1);
          SaveGoes(v, command, given, saved, base, disk, survives, n, 1);
      }
    }
  }

  lemma AttestGoes(v: Services, command: string, given: Word, saved: Progress, base: seq<Entry>, disk: Disk,
                   survives: Option<nat>, p: Process)
    returns (steps: string)
    requires Going(v, command, given, saved, base, disk, survives, p, 1)
    requires p.attestation == if 'r' in command then p.progress.attestation else 0
    ensures var s := StepAttest(v, command, p);
      if s.Running? then
        && Going(v, command, given, saved, base, disk, survives, s.process, 2)
        && s.process.attestation == (if 'r' in command || 'R' in command then s.process.progress.attestation else 0)
      else EndsAfter(v, command, given, saved, base, disk, survives, s, steps)
  {
    TodoStep(command, saved.completed, 1);
    steps := Todo(command, saved.completed, 1);
    if 'R' in command && 'R' !in saved.completed {
      match v.submit(p.log, RequestAttestation) {
        case None => RefusalEnds(v, command, given, saved, base, disk, survives, p, 1, 'R', Rejected);
        case Some(id) =>
          MadeNext(v, command, given, saved, base, p.log, steps, 'R', Entry(RequestAttestation, id));
          var noted := Note(p, 'R', RequestAttestation, id);
          var n := noted.(attestation := id, progress := noted.progress.(attestation := id));
          steps := Todo(command, saved.completed, 2);
          SaveGoes(v, command, given, saved, base, disk, survives, n, 2);
      }
    }
  }

  // What was submitted before the availability check is an attestation's id.
  lemma AttestationNamed(v: Services, command: string, given: Word, saved: Progress, base: seq<Entry>, disk: Disk,
                         survives: Option<nat>, p: Process)
    requires Going(v, command, given, saved, base, disk, survives, p, 2)
    requires p.attestation == if 'r' in command || 'R' in command then p.progress.attestation else 0
    ensures RequestAvailability(p.attestation) == Expected(v, command, given, saved, |base|, 'a', p.log)
  {
    assert |p.log| > |base| ==> Todo(command, saved.completed, 2) != "";
  }

  // The availability check with its answer: what is noted, then saved.
  lemma AvailabilityNoted(v: Services, command: string, given: Word, saved: Progress, base: seq<Entry>, disk: Disk,
                          survives: Option<nat>, p: Process, id: Word)
    returns (n: Process)
    requires Going(v, command, given, saved, base, disk, survives, p, 2) && 'a' in command && 'a' !in saved.completed
    requires RequestAvailability(p.attestation) == Expected(v, command, given, saved, |base|, 'a', p.log)
    requires v.consistent(p.log) && v.submit(p.log, RequestAvailability(p.attestation)) == Some(id)
    ensures StepAvailability(v, command, given, p) == Save(v, n)
    ensures Going(v, command, given, saved, base, disk, survives, n, 3) && base != n.log
    ensures n.instruction == id && |n.log| > |base| && n.log[|n.log| - 1].id == id
  {
    TodoStep(command, saved.completed, 2);
    var request := RequestAvailability(p.attestation);
    MadeNext(v, command, given, saved, base, p.log, Todo(command, saved.completed, 2), 'a', Entry(request, id));
    var noted := Note(p, 'a', request, id);
    n := noted.(instruction := id, progress := noted.progress.(instruction := id));
  }

  lemma AvailabilityGoes(v: Services, command: string, given: Word, saved: Progress, base: seq<Entry>, disk: Disk,
                         survives: Option<nat>, p: Process)
    returns (steps: string)
    requires Going(v, command, given, saved, base, disk, survives, p, 2)
    requires p.attestation == if 'r' in command || 'R' in command then p.progress.attestation else 0
    ensures var s := StepAvailability(v, command, given, p);
      if s.Running? then
        && Going(v, command, given, saved, base, disk, survives, s.process, 3)
        && ToProduction(s.process.instruction) == Expected(v, command, given, saved, |base|, 'p', s.process.log)
      else EndsAfter(v, command, given, saved, base, disk, survives, s, steps)
  {
    TodoStep(command, saved.completed, 2);
    steps := Todo(command, saved.completed, 2);
    if 'a' in command && 'a' !in saved.completed {
      AttestationNamed(v, command, given, saved, base, disk, survives, p);
      if !v.consistent(p.log) {
        RefusalEnds(v, command, given, saved, base, disk, survives, p, 2, 'a', PolicyInconsistent);
      } else {
        match v.submit(p.log, RequestAvailability(p.attestation)) {
          case None => RefusalEnds(v, command, given, saved, base, disk, survives, p, 2, 'a', Rejected);
          case Some(id) =>
            var n := AvailabilityNoted(v, command, given, saved, base, disk, survives, p, id);
            steps := Todo(command, saved.completed, 3);
            SaveGoes(v, command, given, saved, base, disk, survives, n, 3);
        }
      }
    }
  }

  lemma ProductionEnds(v: Services, command: string, given: Word, saved: Progress, base: seq<Entry>, disk: Disk,
                       survives: Option<nat>, p: Process)
    returns (steps: string)
    requires Going(v, command, given, saved, base, disk, survives, p, 3)
    requires ToProduction(p.instruction) == Expected(v, command, given, saved, |base|, 'p', p.log)
    ensures EndsAfter(v, command, given, saved, base, disk, survives, StepProduction(v, command, p), steps)
  {
    TodoStep(command, saved.completed, 3);
    steps := Todo(command, saved.completed, 3);
    if 'p' in command {
      var request := ToProduction(p.instruction);
      if !v.proof(p.log, p.instruction) {
        RefusalEnds(v, command, given, saved, base, disk, survives, p, 3, 'p', ProofUnavailable);
      } else {
        match v.submit(p.log, request) {
          case None => RefusalEnds(v, command, given, saved, base, disk, survives, p, 3, 'p', Rejected);
          case Some(id) =>
            MadeNext(v, command, given, saved, base, p.log, steps, 'p', Entry(request, id));
            steps := Todo(command, saved.completed, 4);
        }
      }
    }
  }

  /** What a readable file tells a run. */
  function Told(disk: Disk): Progress
    requires !disk.Unreadable?
  {
    if disk.Absent? then NOTHING else disk.progress
  }

  /** One run, from any log and any file. A file that cannot be read stops it at once; otherwise it submits the steps
      that are wanted and not in the file, in the order r, R, a, p, each with the request the services' answers call
      for at that moment, and it stops short only in a crash after a save, or because the next step was refused, for
      the reason it gives. */
  lemma RunIsExact(v: Services, command: string, given: Word, log: seq<Entry>, disk: Disk, survives: Option<nat>)
    returns (steps: string)
    ensures var s := RegisterNode(v, command, given, log, disk, survives);
      if disk.Unreadable? then s == Stopped(log, disk, Failed(StateUnreadable))
      else EndsAfter(v, command, given, Told(disk), log, disk, survives, s, steps)
  {
    if disk.Unreadable? {
      return "";
    }
    var saved := Told(disk);
    var p := Process(log, disk, saved, 0, 0, survives);
    assert Load(log, disk, survives) == Running(p);
    assert Going(v, command, given, saved, log, disk, survives, p, 0);
    var first := StepPreRegister(v, command, p);
    steps := PreRegisterGoes(v, command, given, saved, log, disk, survives, p);
    if first.Running? {
      var second := StepAttest(v, command, first.process);
      steps := AttestGoes(v, command, given, saved, log, disk, survives, first.process);
      if second.Running? {
        var third := StepAvailability(v, command, given, second.process);
        steps := AvailabilityGoes(v, command, given, saved, log, disk, survives, second.process);
        if third.Running? {
          steps := ProductionEnds(v, command, given, saved, log, disk, survives, third.process);
        }
      }
    }
  }

  // ---------------------------------------------------------------- any tries

  /** What the try at a position finds: the chain's log and the file the tries before it left. */
  function Found(command: string, given: Word, log: seq<Entry>, disk: Disk, tries: seq<Try>, t: nat): (seq<Entry>, Disk)
    requires t < |tries|
    decreases t
  {
    if t == 0 then (log, disk)
    else
      var first := RegisterNode(tries[0].services, command, given, log, disk, tries[0].survives);
      Found(command, given, first.log, first.disk, tries[1..], t - 1)
  }

  /** A run that found this log and this file submitted the entry at a position, as the step that was then to do,
      with the request that step makes. */
  ghost predicate Own(v: Services, command: string, given: Word, base: seq<Entry>, found: Disk, total: seq<Entry>,
                      at: nat)
    requires at < |total|
  {
    && !found.Unreadable? && base <= total && |base| <= at
    && var todo := Todo(command, Told(found).completed, 4);
    && at - |base| < |todo|
    && Submitted(v, command, given, Told(found), |base|, todo[at - |base|], total, at)
  }

  /** It was this try's, with this try's own services. */
  ghost predicate From(command: string, given: Word, log: seq<Entry>, disk: Disk, tries: seq<Try>, total: seq<Entry>,
                       at: nat, t: nat)
    requires at < |total| && t < |tries|
  {
    var found := Found(command, given, log, disk, tries, t);
    Own(tries[t].services, command, given, found.0, found.1, total, at)
  }

  lemma SubmittedKept(v: Services, command: string, given: Word, saved: Progress, base: nat, step: char,
                      log: seq<Entry>, total: seq<Entry>, at: nat)
    requires at < |log| && log <= total && Submitted(v, command, given, saved, base, step, log, at)
    ensures Submitted(v, command, given, saved, base, step, total, at)
  {
    assert log[..at] == total[..at];
  }

  lemma ReadableAfter(v: Services, command: string, given: Word, log: seq<Entry>, disk: Disk, survives: Option<nat>)
    requires !disk.Unreadable?
    ensures var s := RegisterNode(v, command, given, log, disk, survives); log <= s.log && !s.disk.Unreadable?
  {
    var steps := RunIsExact(v, command, given, log, disk, survives);
  }

  lemma {:induction false} TriesExtend(command: string, given: Word, log: seq<Entry>, disk: Disk, tries: seq<Try>)
    requires tries != [] && !disk.Unreadable?
    ensures log <= Tries(command, given, log, disk, tries).log
    decreases |tries|
  {
    var first := RegisterNode(tries[0].services, command, given, log, disk, tries[0].survives);
    ReadableAfter(tries[0].services, command, given, log, disk, tries[0].survives);
    if |tries| > 1 && !first.end.Completed? {
      TriesExtend(command, given, first.log, first.disk, tries[1..]);
    }
  }

  /** The tries after the first find what they would find without it. */
  lemma FromLater(command: string, given: Word, log: seq<Entry>, disk: Disk, tries: seq<Try>, first: Status,
                  total: seq<Entry>, at: nat, t: nat)
    requires t + 1 < |tries| && first == RegisterNode(tries[0].services, command, given, log, disk, tries[0].survives)
    requires at < |total| && From(command, given, first.log, first.disk, tries[1..], total, at, t)
    ensures From(command, given, log, disk, tries, total, at, t + 1)
  {
    assert Found(command, given, log, disk, tries, t + 1)
      == Found(command, given, first.log, first.disk, tries[1..], t);
  }

  lemma OwnEntry(v: Services, command: string, given: Word, log: seq<Entry>, disk: Disk, survives: Option<nat>,
                 s: Status, steps: string, total: seq<Entry>, at: nat)
    requires !disk.Unreadable? && EndsAfter(v, command, given, Told(disk), log, disk, survives, s, steps)
    requires s.log <= total && |log| <= at < |s.log|
    ensures Own(v, command, given, log, disk, total, at)
  {
    assert Submitted(v, command, given, Told(disk), |log|, steps[at - |log|], s.log, |log| + (at - |log|));
    SubmittedKept(v, command, given, Told(disk), |log|, steps[at - |log|], s.log, total, at);
  }

  /** Over any tries of one command, whatever fails and crashes, with services that answer differently each time:
      every entry was submitted by one of the tries as the step its file and its own submissions left to do, and
      is the request that step makes. The entry of step r is a pre-registration exactly when that try's registry
      does not know the machine after the entries before it, and a request for an attestation otherwise; an
      availability check had a consistent policy and names the latest attestation; a promotion had its proof. */
  lemma {:induction false} EveryEntry(command: string, given: Word, log: seq<Entry>, disk: Disk, tries: seq<Try>,
                                      at: nat)
    returns (t: nat)
    requires tries != [] && !disk.Unreadable?
    requires |log| <= at < |Tries(command, given, log, disk, tries).log|
    ensures t < |tries| && From(command, given, log, disk, tries, Tries(command, given, log, disk, tries).log, at, t)
    decreases |tries|
  {
    var v, total := tries[0].services, Tries(command, given, log, disk, tries).log;
    var first := RegisterNode(v, command, given, log, disk, tries[0].survives);
    var steps := RunIsExact(v, command, given, log, disk, tries[0].survives);
    if at < |first.log| {
      if |tries| > 1 && !first.end.Completed? {
        TriesExtend(command, given, first.log, first.disk, tries[1..]);
      }
      OwnEntry(v, command, given, log, disk, tries[0].survives, first, steps, total, at);
      t := 0;
    } else {
      var later := EveryEntry(command, given, first.log, first.disk, tries[1..], at);
      FromLater(command, given, log, disk, tries, first, total, at, later);
      t := later + 1;
    }
  }
}
