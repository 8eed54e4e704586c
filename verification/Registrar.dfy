/** RegisterNode as it runs: variables assigned step by step, a state file rewritten after each step and
    removed at the end. */
module RegistrarModule {
  import opened Bytes
  import opened Registration
  import opened Wrappers

  class Registrar {
    // accepted by the chain, in order
    var log: seq<Entry>
    var disk: Disk

    // of the current run
    var progress: Progress
    var attestation: Word
    var instruction: Word
    var survives: Option<nat>

    constructor ()
      ensures log == [] && disk == Absent
    {
      log, disk := [], Absent;
      progress, attestation, instruction, survives := NOTHING, 0, 0, None;
    }

    ghost function Now(): Process
      reads this
    {
      Process(log, disk, progress, attestation, instruction, survives)
    }

    /** The status of a run that was stopped, or goes on. */
    ghost function After(stopped: Option<End>): Status
      reads this
    {
      if stopped.Some? then Stop(Now(), stopped.value) else Running(Now())
    }

    method SaveState(services: Services) returns (stopped: Option<End>)
      modifies this`disk, this`survives
      ensures After(stopped) == Save(services, old(Now()))
    {
      stopped := None;
      if services.saves(log) {
        disk := Saved(progress);
        match survives {
          case None =>
          case Some(n) =>
            if n == 0 {
              stopped := Some(Crashed);
            } else {
              survives := Some(n - 1);
            }
        }
      }
    }

    method PreRegistrationStep(services: Services, command: string) returns (stopped: Option<End>)
      modifies this
      ensures After(stopped) == StepPreRegister(services, command, old(Now()))
    {
      stopped := None;
      if 'r' in command {
        if 'r' in progress.completed {
          attestation := progress.attestation;
        } else {
          var request := PreRegister;
          if services.registered(log) {
            request := RequestAttestation;
          }
          var answer := services.submit(log, request);
          if answer.None? {
            return Some(Failed(Rejected));
          }
          attestation := answer.value;
          log := log + [Entry(request, attestation)];
          progress := progress.(completed := progress.completed + "r", attestation := attestation);
          stopped := SaveState(services);
        }
      }
    }

    method AttestationStep(services: Services, command: string) returns (stopped: Option<End>)
      modifies this
      ensures After(stopped) == StepAttest(services, command, old(Now()))
    {
      stopped := None;
      if 'R' in command {
        if 'R' in progress.completed {
          attestation := progress.attestation;
        } else {
          var answer := services.submit(log, RequestAttestation);
          if answer.None? {
            return Some(Failed(Rejected));
          }
          attestation := answer.value;
          log := log + [Entry(RequestAttestation, attestation)];
          progress := progress.(completed := progress.completed + "R", attestation := attestation);
          stopped := SaveState(services);
        }
      }
    }

    method AvailabilityStep(services: Services, command: string, given: Word) returns (stopped: Option<End>)
      modifies this
      ensures After(stopped) == StepAvailability(services, command, given, old(Now()))
    {
      stopped := None;
      if 'a' in command {
        if 'a' in progress.completed {
          instruction := progress.instruction;
        } else {
          if !services.consistent(log) {
            return Some(Failed(PolicyInconsistent));
          }
          var answer := services.submit(log, RequestAvailability(attestation));
          if answer.None? {
            return Some(Failed(Rejected));
          }
          instruction := answer.value;
          log := log + [Entry(RequestAvailability(attestation), instruction)];
          progress := progress.(completed := progress.completed + "a", instruction := instruction);
          stopped := SaveState(services);
        }
      } else {
        instruction := given;
      }
    }

    method ProductionStep(services: Services, command: string) returns (end: End)
      modifies this
      ensures Stop(Now(), end) == StepProduction(services, command, old(Now()))
    {
      if 'p' in command {
        if !services.proof(log, instruction) {
          return Failed(ProofUnavailable);
        }
        var answer := services.submit(log, ToProduction(instruction));
        if answer.None? {
          return Failed(Rejected);
        }
        log := log + [Entry(ToProduction(instruction), answer.value)];
      }
      disk := Absent;
      end := Completed;
    }

    method RegisterNode(services: Services, command: string, given: Word, crashAfter: Option<nat>) returns (end: End)
      modifies this
      ensures Stop(Now(), end) == Registration.RegisterNode(services, command, given, old(log), old(disk), crashAfter)
    {
      match disk {
        case Unreadable => return Failed(StateUnreadable);
        case Absent => progress := NOTHING;
        case Saved(saved) => progress := saved;
      }
      attestation, instruction, survives := 0, 0, crashAfter;
      var stopped := PreRegistrationStep(services, command);
      if stopped.None? {
        stopped := AttestationStep(services, command);
      }
      if stopped.None? {
        stopped := AvailabilityStep(services, command, given);
      }
      if stopped.Some? {
        return stopped.value;
      }
      end := ProductionStep(services, command);
    }
  }
}
