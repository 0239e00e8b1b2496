/**
 What the controllers rely on from the asynchronous deployer of libsveltos, for one applicant and one feature.

 Deploy requests and cleanup requests are kept apart. A request waits in a queue until a worker picks it, a
 worker runs at most one job for it at a time, and the result of a job stays until it is read or cleared.
 A request is not queued twice, and queueing one clears the result of the previous job.
 */
module Deployer {
  import opened Common

  type Hash = Option<nat>

  /** HandOver and WaitForProfiles come from cleanups only. */
  datatype DeployError =
    | NonRetriable
    | Template
    | HealthCheck
    | Forbidden
    | HandOver
    | WaitForProfiles
    | Other

  /** The hash is the one of the configuration the request was made for. */
  datatype Job = Job(serial: nat, hash: Hash)

  datatype Outcome = Outcome(job: Job, error: Option<DeployError>)

  datatype Slot = Slot(queued: Option<Hash>, running: Option<Job>, result: Option<Outcome>)

  datatype Reading = Available(outcome: Outcome) | InProgress | Unavailable

  const IDLE := Slot(None, None, None)

  predicate Active(slot: Slot) {
    slot.queued.Some? || slot.running.Some?
  }

  function Purged(slot: Slot): Slot {
    slot.(queued := None, result := None)
  }

  /** GetResult: reading a result consumes it. */
  function Read(slot: Slot): (Reading, Slot) {
    if slot.result.Some? then (Available(slot.result.value), slot.(result := None))
    else if Active(slot) then (InProgress, slot)
    else (Unavailable, slot)
  }

  function Enqueued(slot: Slot, hash: Hash): Slot {
    if slot.queued.Some? then slot else slot.(queued := Some(hash), result := None)
  }

  predicate CanStart(slot: Slot) {
    slot.queued.Some? && slot.running.None?
  }

  function Started(slot: Slot, serial: nat): Slot
    requires CanStart(slot)
  {
    slot.(queued := None, running := Some(Job(serial, slot.queued.value)))
  }

  function Finished(slot: Slot, error: Option<DeployError>): Slot
    requires slot.running.Some?
  {
    slot.(running := None, result := Some(Outcome(slot.running.value, error)))
  }

  /** A request to an idle deployer is served once: it is run, and what becomes of it is handed out a single time. */
  lemma RequestIsServedOnce(hash: Hash, serial: nat, error: Option<DeployError>)
    ensures var waiting := Enqueued(IDLE, hash);
            && CanStart(waiting) && Read(waiting) == (InProgress, waiting)
            && var running := Started(waiting, serial);
               && !CanStart(running) && !CanStart(Enqueued(running, hash)) && Read(running) == (InProgress, running)
               && Purged(running) == running
               && var done := Finished(running, error);
                  && Read(done) == (Available(Outcome(Job(serial, hash), error)), IDLE)
                  && Read(IDLE) == (Unavailable, IDLE)
  {
  }

  /** A request that waits is not queued again; a new one makes the old result worthless. */
  lemma RequestsDoNotPileUp(slot: Slot, hash: Hash, other: Hash)
    ensures Enqueued(Enqueued(slot, hash), other) == Enqueued(slot, hash)
    ensures slot.queued.None? ==> Read(Enqueued(slot, hash)).0 == InProgress
    ensures Purged(Enqueued(slot, hash)) == Slot(None, slot.running, None)
  {
  }

  datatype Kind = Deploying | CleaningUp

  class Client {
    var deploys: Slot
    var cleanups: Slot

    constructor ()
      ensures deploys == IDLE && cleanups == IDLE
    {
      deploys, cleanups := IDLE, IDLE;
    }

    /** CleanupEntries drops what is queued and what was not read. It does not stop a running job. */
    method CleanupEntries(kind: Kind)
      modifies this
      ensures deploys == if kind == Deploying then Purged(old(deploys)) else old(deploys)
      ensures cleanups == if kind == CleaningUp then Purged(old(cleanups)) else old(cleanups)
    {
      if kind == Deploying {
        deploys := Purged(deploys);
      } else {
        cleanups := Purged(cleanups);
      }
    }

    /** IsInProgress does not count what is only queued. */
    method IsInProgress(kind: Kind) returns (running: bool)
      ensures running == (if kind == Deploying then deploys else cleanups).running.Some?
    {
      running := (if kind == Deploying then deploys else cleanups).running.Some?;
    }

    method GetResult(kind: Kind) returns (reading: Reading)
      modifies this
      ensures reading == Read(if kind == Deploying then old(deploys) else old(cleanups)).0
      ensures deploys == if kind == Deploying then Read(old(deploys)).1 else old(deploys)
      ensures cleanups == if kind == CleaningUp then Read(old(cleanups)).1 else old(cleanups)
    {
      if kind == Deploying {
        reading := Read(deploys).0;
        deploys := Read(deploys).1;
      } else {
        reading := Read(cleanups).0;
        cleanups := Read(cleanups).1;
      }
    }

    method Deploy(kind: Kind, hash: Hash)
      modifies this
      ensures deploys == if kind == Deploying then Enqueued(old(deploys), hash) else old(deploys)
      ensures cleanups == if kind == CleaningUp then Enqueued(old(cleanups), hash) else old(cleanups)
    {
      if kind == Deploying {
        deploys := Enqueued(deploys, hash);
      } else {
        cleanups := Enqueued(cleanups, hash);
      }
    }
  }
}
