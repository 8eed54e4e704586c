/** Resumable TEE registration: the steps a command names, each submitted to the chain and recorded in a
    state file, and what survives crashes, failures and resumes. */
module Registration {
  import opened Bytes
  import opened Wrappers

  datatype Request =
    | PreRegister
    | RequestAttestation
    | RequestAvailability(attestation: Word)
    | ToProduction(instruction: Word)

  // A request the chain accepted, and the instruction id it answered with.
  datatype Entry = Entry(request: Request, id: Word)

  datatype Progress = Progress(completed: string, attestation: Word, instruction: Word)

  const NOTHING := Progress("", 0, 0)

  datatype Disk = Absent | Saved(progress: Progress) | Unreadable

  datatype Reason = StateUnreadable | Rejected | PolicyInconsistent | ProofUnavailable

  /** How the chain and the other services answer, given all that was submitted before. */
  datatype Services = Services(
    submit: (seq<Entry>, Request) -> Option<Word>,
    registered: seq<Entry> -> bool,
    consistent: seq<Entry> -> bool,
    proof: (seq<Entry>, Word) -> bool,
    saves: seq<Entry> -> bool)

  /** One run of the program: its variables, the chain, the file, and how many more saves it survives. */
  datatype Process = Process(
    log: seq<Entry>,
    disk: Disk,
    progress: Progress,
    attestation: Word,
    instruction: Word,
    survives: Option<nat>)

  datatype End = Completed | Crashed | Failed(reason: Reason)

  datatype Status = Running(process: Process) | Stopped(log: seq<Entry>, disk: Disk, end: End)

  function Stop(p: Process, end: End): Status
  {
    Stopped(p.log, p.disk, end)
  }

  /** Writes the file if it can; a crash may follow a write. */
  function Save(services: Services, p: Process): Status
  {
    if !services.saves(p.log) then Running(p)
    else
      var written := p.(disk := Saved(p.progress));
      match p.survives
      case None => Running(written)
      case Some(n) => if n == 0 then Stop(written, Crashed) else Running(written.(survives := Some(n - 1)))
  }

  // An accepted request, noted in the progress.
  function Note(p: Process, step: char, request: Request, id: Word): Process
  {
    p.(log := p.log + [Entry(request, id)], progress := p.progress.(completed := p.progress.completed + [step]))
  }

  function StepPreRegister(services: Services, command: string, p: Process): Status
  {
    if 'r' !in command then Running(p)
    else if 'r' in p.progress.completed then Running(p.(attestation := p.progress.attestation))
    else
      var request := if services.registered(p.log) then RequestAttestation else PreRegister;
      match services.submit(p.log, request)
      case None => Stop(p, Failed(Rejected))
      case Some(id) =>
        var noted := Note(p, 'r', request, id);
        Save(services, noted.(attestation := id, progress := noted.progress.(attestation := id)))
  }

  function StepAttest(services: Services, command: string, p: Process): Status
  {
    if 'R' !in command then Running(p)
    else if 'R' in p.progress.completed then Running(p.(attestation := p.progress.attestation))
    else
      match services.submit(p.log, RequestAttestation)
      case None => Stop(p, Failed(Rejected))
      case Some(id) =>
        var noted := Note(p, 'R', RequestAttestation, id);
        Save(services, noted.(attestation := id, progress := noted.progress.(attestation := id)))
  }

  function StepAvailability(services: Services, command: string, given: Word, p: Process): Status
  {
    if 'a' !in command then Running(p.(instruction := given))
    else if 'a' in p.progress.completed then Running(p.(instruction := p.progress.instruction))
    else if !services.consistent(p.log) then Stop(p, Failed(PolicyInconsistent))
    else
      match services.submit(p.log, RequestAvailability(p.attestation))
      case None => Stop(p, Failed(Rejected))
      case Some(id) =>
        var noted := Note(p, 'a', RequestAvailability(p.attestation), id);
        Save(services, noted.(instruction := id, progress := noted.progress.(instruction := id)))
  }

  function StepProduction(services: Services, command: string, p: Process): Status
  {
    if 'p' !in command then Stop(p.(disk := Absent), Completed)
    else if !services.proof(p.log, p.instruction) then Stop(p, Failed(ProofUnavailable))
    else
      match services.submit(p.log, ToProduction(p.instruction))
      case None => Stop(p, Failed(Rejected))
      case Some(id) => Stop(p.(log := p.log + [Entry(ToProduction(p.instruction), id)], disk := Absent), Completed)
  }

  function Load(log: seq<Entry>, disk: Disk, survives: Option<nat>): Status
  {
    match disk
    case Absent => Running(Process(log, disk, NOTHING, 0, 0, survives))
    case Saved(progress) => Running(Process(log, disk, progress, 0, 0, survives))
    case Unreadable => Stopped(log, disk, Failed(StateUnreadable))
  }

  function FromAvailability(services: Services, command: string, given: Word, p: Process): Status
  {
    match StepAvailability(services, command, given, p)
    case Running(q) => StepProduction(services, command, q)
    case stopped => stopped
  }

  function FromAttest(services: Services, command: string, given: Word, p: Process): Status
  {
    match StepAttest(services, command, p)
    case Running(q) => FromAvailability(services, command, given, q)
    case stopped => stopped
  }

  function FromPreRegister(services: Services, command: string, given: Word, p: Process): Status
  {
    match StepPreRegister(services, command, p)
    case Running(q) => FromAttest(services, command, given, q)
    case stopped => stopped
  }

  /** RegisterNode, surviving the given number of saves, or all of them. */
  function RegisterNode(services: Services, command: string, given: Word, log: seq<Entry>, disk: Disk,
                        survives: Option<nat>): (s: Status)
    ensures s.Stopped?
  {
    match Load(log, disk, survives)
    case Running(p) => FromPreRegister(services, command, given, p)
    case stopped => stopped
  }

  // ---------------------------------------------------------------- crashing and resuming

  /** Runs the same command again and again: each run but the last crashes after surviving some saves. */
  function Resumed(services: Services, command: string, given: Word, log: seq<Entry>, disk: Disk,
                   crashes: seq<nat>): Status
    decreases |crashes|
  {
    if crashes == [] then RegisterNode(services, command, given, log, disk, None)
    else
      var first := RegisterNode(services, command, given, log, disk, Some(crashes[0]));
      if first.end.Crashed? then Resumed(services, command, given, first.log, first.disk, crashes[1..]) else first
  }

  // A process with no crash to come.
  function Lasting(p: Process): Process
  {
    p.(survives := None)
  }

  /** A step with a crash in store does what it does without, except that it may stop after its save. */
  predicate SameButCrash(s: Status, t: Status, step: char)
  {
    if s.Running? then t == Running(Lasting(s.process))
    else if s.end.Crashed? then
      && t.Running? && t.process.survives.None?
      && s.log == t.process.log && s.disk == t.process.disk == Saved(t.process.progress)
      && step in t.process.progress.completed
    else t == s
  }

  lemma PreRegisterLasts(services: Services, command: string, p: Process)
    ensures SameButCrash(StepPreRegister(services, command, p), StepPreRegister(services, command, Lasting(p)), 'r')
    ensures StepPreRegister(services, command, p).Stopped? ==> 'r' in command
  {
  }

  lemma AttestLasts(services: Services, command: string, p: Process)
    ensures SameButCrash(StepAttest(services, command, p), StepAttest(services, command, Lasting(p)), 'R')
    ensures StepAttest(services, command, p).Stopped? ==> 'R' in command
  {
  }

  lemma AvailabilityLasts(services: Services, command: string, given: Word, p: Process)
    ensures SameButCrash(StepAvailability(services, command, given, p),
                         StepAvailability(services, command, given, Lasting(p)), 'a')
    ensures StepAvailability(services, command, given, p).Stopped? ==> 'a' in command
  {
  }

  lemma ProductionLasts(services: Services, command: string, p: Process)
    ensures StepProduction(services, command, p) == StepProduction(services, command, Lasting(p))
    ensures !StepProduction(services, command, p).end.Crashed?
  {
  }

  /** The variables after the attestation steps are those in the progress, or untouched. */
  predicate Synced(command: string, p: Process)
  {
    && p.instruction == 0
    && p.attestation == if 'r' in command || 'R' in command then p.progress.attestation else 0
  }

  /** A process past some steps, and one that starts over from the file it would leave. */
  function Restarted(p: Process): Process
  {
    Process(p.log, Saved(p.progress), p.progress, 0, 0, None)
  }

  lemma PreRegisterSkips(services: Services, command: string, p: Process)
    requires 'r' in command ==> 'r' in p.progress.completed
    ensures StepPreRegister(services, command, Restarted(p)) ==
      Running(Restarted(p).(attestation := if 'r' in command then p.progress.attestation else 0))
  {
  }

  /** What each step guarantees of the process it leaves running. */
  lemma StepsSync(services: Services, command: string, p: Process)
    requires p.attestation == 0 && p.instruction == 0
    ensures var s := StepPreRegister(services, command, p);
      s.Running? ==>
        && ('r' in command ==> 'r' in s.process.progress.completed)
        && ('r' in command ==> s.process.attestation == s.process.progress.attestation)
        && ('r' !in command ==> s.process == p)
        && s.process.instruction == 0
  {
  }

  lemma AttestSync(services: Services, command: string, p: Process)
    requires p.instruction == 0
    requires 'r' in command ==> 'r' in p.progress.completed && p.attestation == p.progress.attestation
    requires 'r' !in command ==> p.attestation == 0
    ensures var s := StepAttest(services, command, p);
      s.Running? ==>
        && ('r' in command ==> 'r' in s.process.progress.completed)
        && ('R' in command ==> 'R' in s.process.progress.completed)
        && Synced(command, s.process)
  {
  }

  /** Starting over after pre-registration, the rest goes as without the crash. */
  lemma AfterPreRegister(services: Services, command: string, given: Word, p: Process)
    requires p.survives.None? && p.disk == Saved(p.progress) && p.instruction == 0
    requires 'r' in command && 'r' in p.progress.completed && p.attestation == p.progress.attestation
    ensures FromPreRegister(services, command, given, Restarted(p)) == FromAttest(services, command, given, p)
  {
    PreRegisterSkips(services, command, p);
    assert Restarted(p).(attestation := p.attestation) == p;
  }

  lemma AfterAttest(services: Services, command: string, given: Word, p: Process)
    requires p.survives.None? && p.disk == Saved(p.progress) && Synced(command, p)
    requires 'R' in command && 'R' in p.progress.completed && ('r' in command ==> 'r' in p.progress.completed)
    ensures FromPreRegister(services, command, given, Restarted(p)) == FromAvailability(services, command, given, p)
  {
    PreRegisterSkips(services, command, p);
    var q := Restarted(p).(attestation := if 'r' in command then p.progress.attestation else 0);
    assert StepAttest(services, command, q) == Running(p);
  }

  lemma AfterAvailability(services: Services, command: string, given: Word, p: Process)
    requires p.survives.None? && p.disk == Saved(p.progress) && p.instruction == p.progress.instruction
    requires 'a' in command && 'a' in p.progress.completed
    requires 'r' in command ==> 'r' in p.progress.completed
    requires 'R' in command ==> 'R' in p.progress.completed
    ensures FromPreRegister(services, command, given, Restarted(p)) == StepProduction(services, command, p)
  {
    PreRegisterSkips(services, command, p);
    var q := Restarted(p).(attestation := if 'r' in command then p.progress.attestation else 0);
    var r := StepAttest(services, command, q).process;
    assert r == q.(attestation := r.attestation);
    assert StepAvailability(services, command, given, r) == Running(r.(instruction := p.progress.instruction));
  }

  lemma AvailabilityNotes(services: Services, command: string, given: Word, p: Process)
    ensures var s := StepAvailability(services, command, given, p);
      s.Running? && 'a' in command ==>
        && s.process.instruction == s.process.progress.instruction && 'a' in s.process.progress.completed
        && p.progress.completed <= s.process.progress.completed
  {
  }

  /** From the availability check on. */
  lemma AvailabilityResumes(services: Services, command: string, given: Word, p: Process)
    requires Synced(command, p)
    requires 'r' in command ==> 'r' in p.progress.completed
    requires 'R' in command ==> 'R' in p.progress.completed
    ensures Resumes(services, command, given, FromAvailability(services, command, given, p),
                    FromAvailability(services, command, given, Lasting(p)))
  {
    var s, t := StepAvailability(services, command, given, p), StepAvailability(services, command, given, Lasting(p));
    AvailabilityLasts(services, command, given, p);
    AvailabilityNotes(services, command, given, Lasting(p));
    if s.Running? {
      ProductionLasts(services, command, s.process);
    } else if s.end.Crashed? {
      AfterAvailability(services, command, given, t.process);
    }
  }

  /** A crashed run, run again from its file, ends like the whole run; any other run is the whole run. */
  predicate Resumes(services: Services, command: string, given: Word, s: Status, whole: Status)
  {
    && s.Stopped?
    && (if s.end.Crashed? then RegisterNode(services, command, given, s.log, s.disk, None) == whole else s == whole)
  }

  /** From the attestation request on. */
  lemma AttestResumes(services: Services, command: string, given: Word, p: Process)
    requires p.instruction == 0
    requires 'r' in command ==> 'r' in p.progress.completed && p.attestation == p.progress.attestation
    requires 'r' !in command ==> p.attestation == 0
    ensures Resumes(services, command, given, FromAttest(services, command, given, p),
                    FromAttest(services, command, given, Lasting(p)))
  {
    var s, t := StepAttest(services, command, p), StepAttest(services, command, Lasting(p));
    AttestLasts(services, command, p);
    AttestSync(services, command, p);
    AttestSync(services, command, Lasting(p));
    if s.Running? {
      AvailabilityResumes(services, command, given, s.process);
    } else if s.end.Crashed? {
      AfterAttest(services, command, given, t.process);
    }
  }

  lemma RegistrationResumes(services: Services, command: string, given: Word, log: seq<Entry>, disk: Disk, n: nat)
    ensures Resumes(services, command, given, RegisterNode(services, command, given, log, disk, Some(n)),
                    RegisterNode(services, command, given, log, disk, None))
  {
    var loaded := Load(log, disk, Some(n));
    if loaded.Running? {
      var p := loaded.process;
      var s, t := StepPreRegister(services, command, p), StepPreRegister(services, command, Lasting(p));
      PreRegisterLasts(services, command, p);
      StepsSync(services, command, p);
      StepsSync(services, command, Lasting(p));
      if s.Running? {
        AttestResumes(services, command, given, s.process);
      } else if s.end.Crashed? {
        AfterPreRegister(services, command, given, t.process);
      }
    }
  }

  /** However often it crashes after a save and is run again with the same command, registration submits
      what one uninterrupted run submits, in the same order, with the same ids, and ends the same way,
      whichever of its other saves fail. */
  lemma {:induction false} ResumesRefineOneRun(services: Services, command: string, given: Word, log: seq<Entry>,
                                               disk: Disk, crashes: seq<nat>)
    ensures Resumed(services, command, given, log, disk, crashes)
      == RegisterNode(services, command, given, log, disk, None)
    decreases |crashes|
  {
    if crashes != [] {
      RegistrationResumes(services, command, given, log, disk, crashes[0]);
      var first := RegisterNode(services, command, given, log, disk, Some(crashes[0]));
      if first.end.Crashed? {
        ResumesRefineOneRun(services, command, given, first.log, first.disk, crashes[1..]);
      }
    }
  }

  // ---------------------------------------------------------------- exactly once

  /** The steps a command wants, up to a stage, in their fixed order. */
  function Wanted(command: string, stage: nat): string
  {
    (if stage >= 1 && 'r' in command then "r" else "")
      + (if stage >= 2 && 'R' in command then "R" else "")
      + (if stage >= 3 && 'a' in command then "a" else "")
  }

  /** The entry at a position is the one submission of its step; an availability check names the id of the
      attestation just before it. */
  predicate Fulfils(step: char, log: seq<Entry>, at: nat, start: nat)
    requires at < |log|
  {
    match log[at].request
    case PreRegister => step == 'r'
    case RequestAttestation => step == 'r' || step == 'R'
    case RequestAvailability(attestation) => step == 'a' && attestation == if at > start then log[at - 1].id else 0
    case ToProduction(_) => false
  }

  /** The chain's log since the start holds exactly one submission for each completed step, in order, and
      the completed steps are what the command wants up to some stage. */
  ghost predicate Booked(command: string, start: seq<Entry>, log: seq<Entry>, progress: Progress, stage: nat)
  {
    var done := progress.completed;
    && stage <= 3 && done == Wanted(command, stage)
    && |log| == |start| + |done| && start <= log
    && (forall k :: 0 <= k < |done| ==> Fulfils(done[k], log, |start| + k, |start|))
    && progress.attestation == LastAttestation(log, |start|, if 'a' in done then |log| - 1 else |log|)
    && ('a' in done ==> progress.instruction == log[|log| - 1].id)
  }

  // The id the last attestation before a position got.
  function LastAttestation(log: seq<Entry>, start: nat, end: int): Word
    requires end <= |log|
  {
    if end > start then log[end - 1].id else 0
  }

  predicate Filed(disk: Disk, progress: Progress)
  {
    disk == Saved(progress) || (disk == Absent && progress == NOTHING)
  }

  /** What a run leaves when it stops: a file that tells exactly what was submitted, or all of it done. */
  ghost predicate Accounted(command: string, given: Word, start: seq<Entry>, s: Status)
  {
    && s.Stopped?
    && (if s.end.Completed?
        then s.disk == Absent && exists progress, log :: Finished(command, given, start, log, progress, s.log)
        else exists progress, stage :: Filed(s.disk, progress) && Booked(command, start, s.log, progress, stage))
  }

  /** Every wanted step submitted once, then the promotion to production if the command wants it. */
  ghost predicate Finished(command: string, given: Word, start: seq<Entry>, log: seq<Entry>, progress: Progress,
                           total: seq<Entry>)
  {
    && Booked(command, start, log, progress, 3)
    && log <= total
    && (if 'p' in command
        then |total| == |log| + 1 && total[|log|].request.ToProduction?
             && total[|log|].request.instruction == (if 'a' in command then log[|log| - 1].id else given)
        else total == log)
  }

  /** Since the run began, at `base`, nothing was submitted, or the file was written after the last submission. */
  predicate Written(services: Services, base: seq<Entry>, log: seq<Entry>)
  {
    log == base || services.saves(log)
  }

  /** Then the file tells all of the progress. */
  predicate Kept(services: Services, base: seq<Entry>, log: seq<Entry>, disk: Disk, progress: Progress)
  {
    base <= log && (Written(services, base, log) ==> Filed(disk, progress))
  }

  ghost predicate Underway(command: string, start: seq<Entry>, p: Process, stage: nat, reached: nat)
  {
    && reached <= stage && Booked(command, start, p.log, p.progress, stage)
    && (reached >= 1 && 'r' in command ==> p.attestation == p.progress.attestation)
    && (reached >= 2 && 'R' in command ==> p.attestation == p.progress.attestation)
    && (p.attestation == 0 || p.attestation == p.progress.attestation)
  }

  lemma NotYet(command: string, stage: nat)
    requires stage <= 3
    ensures 'r' in Wanted(command, stage) <==> stage >= 1 && 'r' in command
    ensures 'R' in Wanted(command, stage) <==> stage >= 2 && 'R' in command
    ensures 'a' in Wanted(command, stage) <==> stage >= 3 && 'a' in command
  {
  }

  /** One more accepted submission. */
  lemma BookNext(command: string, start: seq<Entry>, log: seq<Entry>, progress: Progress, stage: nat, step: char,
                 e: Entry, progress': Progress)
    requires stage < 3 && Booked(command, start, log, progress, stage)
    requires Wanted(command, stage + 1) == Wanted(command, stage) + [step]
    requires Fulfils(step, log + [e], |log|, |start|)
    requires progress'.completed == progress.completed + [step]
    requires if step == 'a' then progress'.attestation == progress.attestation && progress'.instruction == e.id
             else progress'.attestation == e.id && 'a' !in progress'.completed
    ensures Booked(command, start, log + [e], progress', stage + 1)
  {
    NotYet(command, stage);
    var log' := log + [e];
    forall k | 0 <= k < |progress'.completed|
      ensures Fulfils(progress'.completed[k], log', |start| + k, |start|)
    {
      if k < |progress.completed| {
        assert Fulfils(progress.completed[k], log, |start| + k, |start|);
      }
    }
  }

  lemma Restaged(command: string, start: seq<Entry>, p: Process, stage: nat, reached: nat, stage': nat)
    requires Underway(command, start, p, stage, reached) && stage <= stage' <= 3
    requires Wanted(command, stage') == Wanted(command, stage)
    ensures Underway(command, start, p, stage', reached)
  {
  }

  /** A run that stopped short of its end is in order if its last submission was written down. */
  ghost predicate StopsInOrder(services: Services, command: string, given: Word, start: seq<Entry>, base: seq<Entry>,
                               s: Status)
  {
    && s.Stopped? && base <= s.log
    && !s.end.Completed?
    && (Written(services, base, s.log) ==> Accounted(command, given, start, s))
  }

  lemma StopBooks(services: Services, command: string, given: Word, start: seq<Entry>, base: seq<Entry>, s: Status,
                  progress: Progress, stage: nat)
    requires s.Stopped? && !s.end.Completed? && Kept(services, base, s.log, s.disk, progress)
    requires Booked(command, start, s.log, progress, stage)
    ensures StopsInOrder(services, command, given, start, base, s)
  {
  }

  /** After one more accepted submission the save decides. */
  lemma SaveBooks(services: Services, command: string, given: Word, start: seq<Entry>, base: seq<Entry>, n: Process,
                  stage: nat)
    requires base < n.log && Booked(command, start, n.log, n.progress, stage)
    ensures var s := Save(services, n);
      if s.Running? then
        && s.process == n.(disk := s.process.disk, survives := s.process.survives)
        && Kept(services, base, n.log, s.process.disk, n.progress)
      else StopsInOrder(services, command, given, start, base, s)
  {
    var s := Save(services, n);
    if s.Stopped? {
      StopBooks(services, command, given, start, base, s, n.progress, stage);
    }
  }

  lemma PreRegisterBooks(services: Services, command: string, given: Word, start: seq<Entry>, base: seq<Entry>,
                         p: Process, stage: nat)
    returns (stage': nat)
    requires Kept(services, base, p.log, p.disk, p.progress) && Underway(command, start, p, stage, 0)
      && p.attestation == 0
    ensures var s := StepPreRegister(services, command, p);
      if s.Running? then Kept(services, base, s.process.log, s.process.disk, s.process.progress)
        && Underway(command, start, s.process, stage', 1)
      else StopsInOrder(services, command, given, start, base, s)
  {
    NotYet(command, stage);
    stage' := if stage >= 1 then stage else 1;
    var s := StepPreRegister(services, command, p);
    if 'r' in command && 'r' !in p.progress.completed {
      var request := if services.registered(p.log) then RequestAttestation else PreRegister;
      match services.submit(p.log, request) {
        case None => StopBooks(services, command, given, start, base, s, p.progress, stage);
        case Some(id) =>
          var progress := Progress(p.progress.completed + "r", id, p.progress.instruction);
          BookNext(command, start, p.log, p.progress, 0, 'r', Entry(request, id), progress);
          SaveBooks(services, command, given, start, base,
                    p.(log := p.log + [Entry(request, id)], attestation := id, progress := progress), 1);
      }
    } else {
      Restaged(command, start, p, stage, 0, stage');
    }
  }

  lemma AttestBooks(services: Services, command: string, given: Word, start: seq<Entry>, base: seq<Entry>, p: Process,
                    stage: nat)
    returns (stage': nat)
    requires Kept(services, base, p.log, p.disk, p.progress) && Underway(command, start, p, stage, 1)
    ensures var s := StepAttest(services, command, p);
      if s.Running? then Kept(services, base, s.process.log, s.process.disk, s.process.progress)
        && Underway(command, start, s.process, stage', 2)
      else StopsInOrder(services, command, given, start, base, s)
  {
    NotYet(command, stage);
    stage' := if stage >= 2 then stage else 2;
    var s := StepAttest(services, command, p);
    if 'R' in command && 'R' !in p.progress.completed {
      match services.submit(p.log, RequestAttestation) {
        case None => StopBooks(services, command, given, start, base, s, p.progress, stage);
        case Some(id) =>
          AttestBooked(command, start, p, id);
          SaveBooks(services, command, given, start, base,
                    p.(log := p.log + [Entry(RequestAttestation, id)], attestation := id,
                       progress := AttestProgress(p, id)), 2);
      }
    } else {
      Restaged(command, start, p, stage, 1, stage');
    }
  }

  function AttestProgress(p: Process, id: Word): Progress
  {
    Progress(p.progress.completed + "R", id, p.progress.instruction)
  }

  lemma AttestBooked(command: string, start: seq<Entry>, p: Process, id: Word)
    requires Underway(command, start, p, 1, 1) && 'R' in command
    ensures Booked(command, start, p.log + [Entry(RequestAttestation, id)], AttestProgress(p, id), 2)
  {
    NotYet(command, 1);
    BookNext(command, start, p.log, p.progress, 1, 'R', Entry(RequestAttestation, id), AttestProgress(p, id));
  }

  /** The availability check names the attestation the log ends with. */
  lemma AttestationKnown(command: string, start: seq<Entry>, p: Process)
    requires Underway(command, start, p, 2, 2)
    ensures p.attestation == if |p.log| > |start| then p.log[|p.log| - 1].id else 0
  {
    NotYet(command, 2);
  }

  lemma AvailabilityBooks(services: Services, command: string, given: Word, start: seq<Entry>, base: seq<Entry>,
                          p: Process, stage: nat)
    requires Kept(services, base, p.log, p.disk, p.progress) && Underway(command, start, p, stage, 2)
    ensures var s := StepAvailability(services, command, given, p);
      if s.Running? then
        && Kept(services, base, s.process.log, s.process.disk, s.process.progress)
        && Booked(command, start, s.process.log, s.process.progress, 3)
        && s.process.instruction == (if 'a' in command then s.process.progress.instruction else given)
      else StopsInOrder(services, command, given, start, base, s)
  {
    NotYet(command, stage);
    var s := StepAvailability(services, command, given, p);
    if 'a' in command && 'a' !in p.progress.completed {
      if !services.consistent(p.log) {
        StopBooks(services, command, given, start, base, s, p.progress, stage);
      } else {
        match services.submit(p.log, RequestAvailability(p.attestation)) {
          case None => StopBooks(services, command, given, start, base, s, p.progress, stage);
          case Some(id) =>
            AvailabilityBooked(command, start, p, id);
            SaveBooks(services, command, given, start, base,
                      p.(log := p.log + [Entry(RequestAvailability(p.attestation), id)], instruction := id,
                         progress := AvailabilityProgress(p, id)), 3);
        }
      }
    } else {
      Restaged(command, start, p, stage, 2, 3);
    }
  }

  function AvailabilityProgress(p: Process, id: Word): Progress
  {
    Progress(p.progress.completed + "a", p.progress.attestation, id)
  }

  lemma AvailabilityBooked(command: string, start: seq<Entry>, p: Process, id: Word)
    requires Underway(command, start, p, 2, 2) && 'a' in command
    ensures Booked(command, start, p.log + [Entry(RequestAvailability(p.attestation), id)], AvailabilityProgress(p, id),
                   3)
  {
    NotYet(command, 2);
    AttestationKnown(command, start, p);
    BookNext(command, start, p.log, p.progress, 2, 'a', Entry(RequestAvailability(p.attestation), id),
             AvailabilityProgress(p, id));
  }

  lemma ProductionBooks(services: Services, command: string, given: Word, start: seq<Entry>, base: seq<Entry>,
                        p: Process)
    requires Kept(services, base, p.log, p.disk, p.progress) && Booked(command, start, p.log, p.progress, 3)
    requires p.instruction == if 'a' in command then p.progress.instruction else given
    ensures var s := StepProduction(services, command, p);
      if s.end.Completed? then Accounted(command, given, start, s)
      else StopsInOrder(services, command, given, start, base, s)
  {
    NotYet(command, 3);
    var s := StepProduction(services, command, p);
    if s.end.Completed? {
      assert Finished(command, given, start, p.log, p.progress, s.log);
    } else {
      StopBooks(services, command, given, start, base, s, p.progress, 3);
    }
  }

  /** One run, from any file an earlier run of the same command can have left: it completes in order, or it
      stops in order if the last thing it submitted was written down. */
  lemma RunBooks(services: Services, command: string, given: Word, start: seq<Entry>, log: seq<Entry>, disk: Disk,
                 survives: Option<nat>, progress: Progress, stage: nat)
    requires Filed(disk, progress) && Booked(command, start, log, progress, stage)
    ensures var s := RegisterNode(services, command, given, log, disk, survives);
      s.end.Completed? || Written(services, log, s.log) ==> Accounted(command, given, start, s)
  {
    var p := Process(log, disk, progress, 0, 0, survives);
    assert Load(log, disk, survives) == Running(p);
    assert Underway(command, start, p, stage, 0);
    var first := StepPreRegister(services, command, p);
    var stage1 := PreRegisterBooks(services, command, given, start, log, p, stage);
    if first.Running? {
      var second := StepAttest(services, command, first.process);
      var stage2 := AttestBooks(services, command, given, start, log, first.process, stage1);
      if second.Running? {
        var third := StepAvailability(services, command, given, second.process);
        AvailabilityBooks(services, command, given, start, log, second.process, stage2);
        if third.Running? {
          ProductionBooks(services, command, given, start, log, third.process);
        }
      }
    }
  }

  // ---------------------------------------------------------------- what a lost save costs

  /** The steps noted so far, and how many submissions more than those the chain has seen since the start. */
  predicate Paced(command: string, start: seq<Entry>, log: seq<Entry>, progress: Progress, stage: nat, excess: nat)
  {
    stage <= 3 && progress.completed == Wanted(command, stage) && |log| == |start| + |progress.completed| + excess
  }

  /** The file holds these steps: all the progress if it was written after the last submission, else fewer. */
  predicate Trails(services: Services, command: string, base: seq<Entry>, p: Process, filed: Progress, stage: nat)
  {
    && base <= p.log && Filed(p.disk, filed)
    && stage <= 3 && filed.completed == Wanted(command, stage)
    && (if Written(services, base, p.log) then filed == p.progress else |filed.completed| < |p.progress.completed|)
  }

  ghost predicate Pacing(services: Services, command: string, start: seq<Entry>, base: seq<Entry>, p: Process,
                         stage: nat, excess: nat)
  {
    && Paced(command, start, p.log, p.progress, stage, excess)
    && exists filed, at :: Trails(services, command, base, p, filed, at)
  }

  /** What a run that stops short leaves: the excess grew exactly if its last submission was not written down. */
  ghost predicate StopsPaced(services: Services, command: string, start: seq<Entry>, base: seq<Entry>, s: Status,
                             excess: nat)
  {
    && s.Stopped? && !s.end.Completed?
    && exists filed, at, excess' :: Leaves(services, command, start, base, s, excess, filed, at, excess')
  }

  predicate Leaves(services: Services, command: string, start: seq<Entry>, base: seq<Entry>, s: Status, excess: nat,
                   filed: Progress, at: nat, excess': nat)
    requires s.Stopped?
  {
    && Filed(s.disk, filed) && Paced(command, start, s.log, filed, at, excess')
    && (if Written(services, base, s.log) then excess' == excess else excess' > excess)
  }

  lemma StopPaces(services: Services, command: string, start: seq<Entry>, base: seq<Entry>, p: Process, stage: nat,
                  excess: nat, end: End)
    requires Pacing(services, command, start, base, p, stage, excess) && !end.Completed?
    ensures StopsPaced(services, command, start, base, Stop(p, end), excess)
  {
    var filed, at :| Trails(services, command, base, p, filed, at);
    assert Leaves(services, command, start, base, Stop(p, end), excess, filed, at,
                  |p.log| - |start| - |filed.completed|);
  }

  /** One more accepted submission, and its save, successful or not. */
  lemma SavePaces(services: Services, command: string, start: seq<Entry>, base: seq<Entry>, p: Process, n: Process,
                  step: char, stage: nat, excess: nat)
    requires stage < 3 && Wanted(command, stage + 1) == Wanted(command, stage) + [step]
    requires Pacing(services, command, start, base, p, stage, excess)
    requires p.log < n.log && |n.log| == |p.log| + 1 && n.disk == p.disk
      && n.progress.completed == p.progress.completed + [step]
    ensures var s := Save(services, n);
      if s.Running? then Pacing(services, command, start, base, s.process, stage + 1, excess)
      else StopsPaced(services, command, start, base, s, excess)
  {
    var filed, at :| Trails(services, command, base, p, filed, at);
    var s := Save(services, n);
    if services.saves(n.log) {
      if s.Running? {
        assert Trails(services, command, base, s.process, n.progress, stage + 1);
      } else {
        assert Leaves(services, command, start, base, s, excess, n.progress, stage + 1, excess);
      }
    } else {
      assert Trails(services, command, base, s.process, filed, at);
    }
  }

  // A step that was done before, or is not wanted.
  lemma SkipPaces(services: Services, command: string, start: seq<Entry>, base: seq<Entry>, p: Process, q: Process,
                  stage: nat, stage': nat, excess: nat)
    requires Pacing(services, command, start, base, p, stage, excess)
    requires stage <= stage' <= 3 && Wanted(command, stage') == Wanted(command, stage)
    requires q.log == p.log && q.disk == p.disk && q.progress == p.progress
    ensures Pacing(services, command, start, base, q, stage', excess)
  {
    var filed, at :| Trails(services, command, base, p, filed, at);
    assert Trails(services, command, base, q, filed, at);
  }

  lemma PreRegisterPaces(services: Services, command: string, start: seq<Entry>, base: seq<Entry>, p: Process,
                         stage: nat, excess: nat)
    returns (stage': nat)
    requires Pacing(services, command, start, base, p, stage, excess)
    ensures 1 <= stage'
    ensures var s := StepPreRegister(services, command, p);
      if s.Running? then Pacing(services, command, start, base, s.process, stage', excess)
      else StopsPaced(services, command, start, base, s, excess)
  {
    NotYet(command, stage);
    stage' := if stage >= 1 then stage else 1;
    var s := StepPreRegister(services, command, p);
    if 'r' in command && 'r' !in p.progress.completed {
      var request := if services.registered(p.log) then RequestAttestation else PreRegister;
      match services.submit(p.log, request) {
        case None => StopPaces(services, command, start, base, p, stage, excess, Failed(Rejected));
        case Some(id) =>
          var noted := Note(p, 'r', request, id);
          SavePaces(services, command, start, base, p,
                    noted.(attestation := id, progress := noted.progress.(attestation := id)), 'r', 0, excess);
      }
    } else {
      SkipPaces(services, command, start, base, p, s.process, stage, stage', excess);
    }
  }

  lemma AttestPaces(services: Services, command: string, start: seq<Entry>, base: seq<Entry>, p: Process, stage: nat,
                    excess: nat)
    returns (stage': nat)
    requires Pacing(services, command, start, base, p, stage, excess) && 1 <= stage
    ensures 2 <= stage'
    ensures var s := StepAttest(services, command, p);
      if s.Running? then Pacing(services, command, start, base, s.process, stage', excess)
      else StopsPaced(services, command, start, base, s, excess)
  {
    NotYet(command, stage);
    stage' := if stage >= 2 then stage else 2;
    var s := StepAttest(services, command, p);
    if 'R' in command && 'R' !in p.progress.completed {
      match services.submit(p.log, RequestAttestation) {
        case None => StopPaces(services, command, start, base, p, stage, excess, Failed(Rejected));
        case Some(id) =>
          var noted := Note(p, 'R', RequestAttestation, id);
          SavePaces(services, command, start, base, p,
                    noted.(attestation := id, progress := noted.progress.(attestation := id)), 'R', 1, excess);
      }
    } else {
      SkipPaces(services, command, start, base, p, s.process, stage, stage', excess);
    }
  }

  lemma AvailabilityPaces(services: Services, command: string, given: Word, start: seq<Entry>, base: seq<Entry>,
                          p: Process, stage: nat, excess: nat)
    requires Pacing(services, command, start, base, p, stage, excess) && 2 <= stage
    ensures var s := StepAvailability(services, command, given, p);
      if s.Running? then Pacing(services, command, start, base, s.process, 3, excess)
      else StopsPaced(services, command, start, base, s, excess)
  {
    NotYet(command, stage);
    var s := StepAvailability(services, command, given, p);
    if 'a' in command && 'a' !in p.progress.completed {
      if !services.consistent(p.log) {
        StopPaces(services, command, start, base, p, stage, excess, Failed(PolicyInconsistent));
      } else {
        match services.submit(p.log, RequestAvailability(p.attestation)) {
          case None => StopPaces(services, command, start, base, p, stage, excess, Failed(Rejected));
          case Some(id) =>
            var noted := Note(p, 'a', RequestAvailability(p.attestation), id);
            SavePaces(services, command, start, base, p,
                      noted.(instruction := id, progress := noted.progress.(instruction := id)), 'a', 2, excess);
        }
      }
    } else {
      SkipPaces(services, command, start, base, p, s.process, stage, 3, excess);
    }
  }

  lemma ProductionPaces(services: Services, command: string, start: seq<Entry>, base: seq<Entry>, p: Process,
                        excess: nat)
    requires Pacing(services, command, start, base, p, 3, excess)
    ensures var s := StepProduction(services, command, p);
      if s.end.Completed? then |s.log| == |start| + |Wanted(command, 3)| + excess + (if 'p' in command then 1 else 0)
      else StopsPaced(services, command, start, base, s, excess)
  {
    var s := StepProduction(services, command, p);
    if !s.end.Completed? {
      StopPaces(services, command, start, base, p, 3, excess, s.end);
    }
  }

  /** One run and the excess: never less, and more exactly if it stops with its last submission unwritten. */
  lemma RunPaces(services: Services, command: string, given: Word, start: seq<Entry>, log: seq<Entry>, disk: Disk,
                 survives: Option<nat>, progress: Progress, stage: nat, excess: nat)
    requires Filed(disk, progress) && Paced(command, start, log, progress, stage, excess)
    ensures var s := RegisterNode(services, command, given, log, disk, survives);
      if s.end.Completed? then |s.log| == |start| + |Wanted(command, 3)| + excess + (if 'p' in command then 1 else 0)
      else StopsPaced(services, command, start, log, s, excess)
  {
    var p := Process(log, disk, progress, 0, 0, survives);
    assert Load(log, disk, survives) == Running(p);
    assert Trails(services, command, log, p, progress, stage);
    var first := StepPreRegister(services, command, p);
    var stage1 := PreRegisterPaces(services, command, start, log, p, stage, excess);
    if first.Running? {
      var second := StepAttest(services, command, first.process);
      var stage2 := AttestPaces(services, command, start, log, first.process, stage1, excess);
      if second.Running? {
        var third := StepAvailability(services, command, given, second.process);
        AvailabilityPaces(services, command, given, start, log, second.process, stage2, excess);
        if third.Running? {
          ProductionPaces(services, command, start, log, third.process, excess);
        }
      }
    }
  }

  // ---------------------------------------------------------------- over any tries

  datatype Try = Try(services: Services, survives: Option<nat>)

  /** Runs the same command until it completes or patience ends; services may answer differently each time. */
  function Tries(command: string, given: Word, log: seq<Entry>, disk: Disk, tries: seq<Try>): (s: Status)
    requires tries != []
    ensures s.Stopped?
    decreases |tries|
  {
    var first := RegisterNode(tries[0].services, command, given, log, disk, tries[0].survives);
    if |tries| == 1 || first.end.Completed? then first else Tries(command, given, first.log, first.disk, tries[1..])
  }

  /** Every try that did not complete had submitted nothing, or had written the file after its last submission. */
  predicate AllWritten(command: string, given: Word, log: seq<Entry>, disk: Disk, tries: seq<Try>)
    requires tries != []
    decreases |tries|
  {
    var first := RegisterNode(tries[0].services, command, given, log, disk, tries[0].survives);
    first.end.Completed? ||
    (Written(tries[0].services, log, first.log) && (|tries| == 1
                                                    || AllWritten(command, given, first.log, first.disk, tries[1..])))
  }

  lemma {:induction false} TriesBook(command: string, given: Word, start: seq<Entry>, log: seq<Entry>, disk: Disk,
                                     tries: seq<Try>, progress: Progress, stage: nat)
    requires tries != [] && AllWritten(command, given, log, disk, tries)
    requires Filed(disk, progress) && Booked(command, start, log, progress, stage)
    ensures Accounted(command, given, start, Tries(command, given, log, disk, tries))
    decreases |tries|
  {
    var first := RegisterNode(tries[0].services, command, given, log, disk, tries[0].survives);
    RunBooks(tries[0].services, command, given, start, log, disk, tries[0].survives, progress, stage);
    if |tries| > 1 && !first.end.Completed? {
      var progress', stage' :| Filed(first.disk, progress') && Booked(command, start, first.log, progress', stage');
      TriesBook(command, given, start, first.log, first.disk, tries[1..], progress', stage');
    }
  }

  // What is in order has no excess.
  lemma ExcessIsDisorder(command: string, given: Word, start: seq<Entry>, s: Status, filed: Progress, at: nat,
                         excess: nat)
    requires s.Stopped? && excess > 0
    requires if s.end.Completed? then |s.log| == |start| + |Wanted(command, 3)| + excess
      + (if 'p' in command then 1 else 0)
             else Filed(s.disk, filed) && Paced(command, start, s.log, filed, at, excess)
    ensures !Accounted(command, given, start, s)
  {
  }

  /** A submission lost to the file stays lost. */
  lemma {:induction false} TriesExceed(command: string, given: Word, start: seq<Entry>, log: seq<Entry>, disk: Disk,
                                       tries: seq<Try>, progress: Progress, stage: nat, excess: nat)
    requires tries != [] && (excess > 0 || !AllWritten(command, given, log, disk, tries))
    requires Filed(disk, progress) && Paced(command, start, log, progress, stage, excess)
    ensures !Accounted(command, given, start, Tries(command, given, log, disk, tries))
    decreases |tries|
  {
    var services := tries[0].services;
    var first := RegisterNode(services, command, given, log, disk, tries[0].survives);
    RunPaces(services, command, given, start, log, disk, tries[0].survives, progress, stage, excess);
    if first.end.Completed? {
      ExcessIsDisorder(command, given, start, first, NOTHING, 0, excess);
    } else {
      var filed, at, excess' :| Leaves(services, command, start, log, first, excess, filed, at, excess');
      if |tries| == 1 {
        ExcessIsDisorder(command, given, start, first, filed, at, excess');
      } else {
        TriesExceed(command, given, start, first.log, first.disk, tries[1..], filed, at, excess');
      }
    }
  }

  /** One run, from any file a run in order can have left: if it stops short, the file it leaves tells exactly
      what was submitted if and only if it submitted nothing or its save worked after the last submission. */
  lemma FiledIffWritten(services: Services, command: string, given: Word, start: seq<Entry>, log: seq<Entry>,
                        disk: Disk, survives: Option<nat>, progress: Progress, stage: nat)
    requires Filed(disk, progress) && Booked(command, start, log, progress, stage)
    ensures var s := RegisterNode(services, command, given, log, disk, survives);
      Accounted(command, given, start, s) <==> s.end.Completed? || Written(services, log, s.log)
  {
    var s := RegisterNode(services, command, given, log, disk, survives);
    RunBooks(services, command, given, start, log, disk, survives, progress, stage);
    if !s.end.Completed? && !Written(services, log, s.log) {
      RunPaces(services, command, given, start, log, disk, survives, progress, stage, 0);
      var filed, at, excess :| Leaves(services, command, start, log, s, 0, filed, at, excess);
      ExcessIsDisorder(command, given, start, s, filed, at, excess);
    }
  }

  /** From a fresh start, over any tries of one command, with any failures and any crashes after saves: every
      step is submitted at most once, in the order r, R, a, the availability check names the attestation
      before it, and on completion every wanted step was submitted once, if and only if each try that
      stopped short had submitted nothing or had written the file after its last submission. */
  lemma ExactlyOnce(command: string, given: Word, log: seq<Entry>, tries: seq<Try>)
    requires tries != []
    ensures Accounted(command, given, log, Tries(command, given, log, Absent, tries))
      <==> AllWritten(command, given, log, Absent, tries)
  {
    assert Wanted(command, 0) == "";
    if AllWritten(command, given, log, Absent, tries) {
      TriesBook(command, given, log, log, Absent, tries, NOTHING, 0);
    } else {
      TriesExceed(command, given, log, log, Absent, tries, NOTHING, 0, 0);
    }
  }

  /** A save that fails can cost a second submission: a run that cannot write the file and then fails its
      policy check leaves no trace, and the next run requests the attestation again. */
  lemma FailedSaveResubmits(broken: Services, working: Services)
    requires forall log :: !broken.saves(log) && !broken.consistent(log)
    requires forall log :: working.saves(log) && working.consistent(log)
    requires forall log, request :: broken.submit(log, request) == working.submit(log, request) == Some(7)
    ensures var s := Tries("Ra", 0, [], Absent, [Try(broken, None), Try(working, None)]);
      s.end.Completed? && s.log == [Entry(RequestAttestation, 7), Entry(RequestAttestation, 7),
                                    Entry(RequestAvailability(7), 7)]
  {
    var first := RegisterNode(broken, "Ra", 0, [], Absent, None);
    assert first == Stopped([Entry(RequestAttestation, 7)], Absent, Failed(PolicyInconsistent)) by {
      var p := Process([], Absent, NOTHING, 0, 0, None);
      assert StepAttest(broken, "Ra", p).Running?;
    }
    var tries := [Try(broken, None), Try(working, None)];
    assert tries[1..] == [Try(working, None)];
    var second := RegisterNode(working, "Ra", 0, first.log, Absent, None);
    assert second.end.Completed?;
  }
}
