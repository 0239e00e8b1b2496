/**
 The cooldown between two reconciliations of a ClusterSummary (controllers/clustersummary_controller.go:
 setNextReconcileTime, remainingCooldown, skipReconciliation, updateDeletedInstancs).

 Times are in seconds. The cooldown is kept in memory, and in the status of the object for a restarted controller.
 */
module Cooldown {
  import opened Common

  const NORMAL_REQUEUE_AFTER := 10
  const DELETE_REQUEUE_AFTER := 10

  datatype Entry = Entry(until: int, generation: int)

  /** What skipReconciliation and remainingCooldown look at, for one object. */
  datatype View = View(entry: Option<Entry>, deletedAt: Option<int>, nextTime: Option<int>, generation: int,
                       deleting: bool)

  predicate TooSoonAfterDeletion(v: View, now: int) {
    v.deleting && v.deletedAt.Some? && now <= v.deletedAt.value + DELETE_REQUEUE_AFTER
  }

  predicate Skips(v: View, now: int) {
    || TooSoonAfterDeletion(v, now)
    || (if v.entry.Some? then v.entry.value.generation >= v.generation && now < v.entry.value.until
        else v.nextTime.Some? && now < v.nextTime.value)
  }

  /** The memory and the status after skipReconciliation. */
  function AfterSkip(v: View, now: int): View {
    if TooSoonAfterDeletion(v, now) then v
    else if !Skips(v, now) then v.(entry := None, nextTime := None)
    else if v.entry.Some? then v
    else v.(entry := Some(Entry(v.nextTime.value, v.generation)))
  }

  function Remaining(v: View, now: int): int {
    var first := if v.nextTime.Some? && v.nextTime.value - now > 0 then v.nextTime.value - now
                 else NORMAL_REQUEUE_AFTER;
    if v.entry.Some? && v.entry.value.until - now > first then v.entry.value.until - now else first
  }

  class ClusterSummary {
    const name: string
    const generation: int
    const deleting: bool
    var nextReconcileTime: Option<int>

    constructor (name: string, generation: int, deleting: bool, nextReconcileTime: Option<int>)
      ensures this.name == name && this.generation == generation && this.deleting == deleting
      ensures this.nextReconcileTime == nextReconcileTime
    {
      this.name, this.generation := name, generation;
      this.deleting, this.nextReconcileTime := deleting, nextReconcileTime;
    }
  }

  class Reconciler {
    var nextReconcileTimes: map<string, Entry>
    var deletedInstances: map<string, int>

    constructor ()
      ensures nextReconcileTimes == map[] && deletedInstances == map[]
    {
      nextReconcileTimes, deletedInstances := map[], map[];
    }

    function ViewOf(cs: ClusterSummary): View
      reads this, cs
    {
      View(if cs.name in nextReconcileTimes then Some(nextReconcileTimes[cs.name]) else None,
           if cs.name in deletedInstances then Some(deletedInstances[cs.name]) else None,
           cs.nextReconcileTime, cs.generation, cs.deleting)
    }

    method SetNextReconcileTime(cs: ClusterSummary, now: int, d: int)
      modifies this`nextReconcileTimes, cs`nextReconcileTime
      ensures ViewOf(cs) == old(ViewOf(cs)).(entry := Some(Entry(now + d, cs.generation)), nextTime := Some(now + d))
      ensures nextReconcileTimes - {cs.name} == old(nextReconcileTimes) - {cs.name}
    {
      var nextTime := now + d;
      cs.nextReconcileTime := Some(nextTime);
      nextReconcileTimes := nextReconcileTimes[cs.name := Entry(nextTime, cs.generation)];
    }

    method RemainingCooldown(cs: ClusterSummary, now: int) returns (requeueAfter: int)
      ensures requeueAfter == Remaining(ViewOf(cs), now)
    {
      requeueAfter := NORMAL_REQUEUE_AFTER;
      if cs.nextReconcileTime.Some? {
        var remaining := cs.nextReconcileTime.value - now;
        if remaining > 0 {
          requeueAfter := remaining;
        }
      }
      if cs.name in nextReconcileTimes {
        var remaining := nextReconcileTimes[cs.name].until - now;
        if remaining > requeueAfter {
          requeueAfter := remaining;
        }
      }
    }

    method SkipReconciliation(cs: ClusterSummary, now: int) returns (skip: bool)
      modifies this`nextReconcileTimes, cs`nextReconcileTime
      ensures skip == Skips(old(ViewOf(cs)), now)
      ensures ViewOf(cs) == AfterSkip(old(ViewOf(cs)), now)
      ensures nextReconcileTimes - {cs.name} == old(nextReconcileTimes) - {cs.name}
    {
      if cs.deleting && cs.name in deletedInstances {
        if !(now > deletedInstances[cs.name] + DELETE_REQUEUE_AFTER) {
          return true;
        }
      }
      if cs.name in nextReconcileTimes {
        var cd := nextReconcileTimes[cs.name];
        if cd.generation < cs.generation {
          nextReconcileTimes := nextReconcileTimes - {cs.name};
          cs.nextReconcileTime := None;
          return false;
        }
        if now < cd.until {
          return true;
        }
        nextReconcileTimes := nextReconcileTimes - {cs.name};
      } else if cs.nextReconcileTime.Some? && now < cs.nextReconcileTime.value {
        nextReconcileTimes := nextReconcileTimes[cs.name := Entry(cs.nextReconcileTime.value, cs.generation)];
        return true;
      }
      cs.nextReconcileTime := None;
      skip := false;
    }

    method UpdateDeletedInstances(cs: ClusterSummary, now: int)
      modifies this
      ensures ViewOf(cs) == old(ViewOf(cs)).(entry := None, deletedAt := Some(now))
      ensures nextReconcileTimes - {cs.name} == old(nextReconcileTimes) - {cs.name}
    {
      deletedInstances := deletedInstances[cs.name := now];
      nextReconcileTimes := nextReconcileTimes - {cs.name};
    }
  }

  // ----- The cooldown is honoured -----

  /** persisted is the status in the API server, which is what a reconciliation starts from. */
  datatype State = State(now: int, entry: Option<Entry>, persisted: Option<int>, generation: int)

  datatype Step =
    | Tick(seconds: nat)
    | Try
    | Persist(nextTime: int)
    | Restart
    | Bump

  function LiveView(st: State): View {
    View(st.entry, None, st.persisted, st.generation, false)
  }

  /** Try is a reconciliation that starts, of an object that is not being deleted. */
  function Next(st: State, step: Step): State {
    match step
    case Tick(s) => st.(now := st.now + s)
    case Try => st.(entry := AfterSkip(LiveView(st), st.now).entry)
    case Persist(t) => st.(persisted := Some(t))
    case Restart => st.(entry := None)
    case Bump => st.(generation := st.generation + 1)
  }

  function Final(st: State, steps: seq<Step>): State
    decreases |steps|
  {
    if steps == [] then st else Final(Next(st, steps[0]), steps[1..])
  }

  /** Every reconciliation of the run so far was skipped. */
  predicate AllSkip(st: State, steps: seq<Step>)
    decreases |steps|
  {
    steps != [] ==> (steps[0].Try? ==> Skips(LiveView(st), st.now)) && AllSkip(Next(st, steps[0]), steps[1..])
  }

  /** Only this deadline is persisted, and it is before the controller restarts. */
  predicate PersistedInTime(st: State, steps: seq<Step>, until: int)
    decreases |steps|
  {
    steps != [] ==>
      && (steps[0].Restart? ==> st.persisted == Some(until))
      && (steps[0].Persist? ==> steps[0].nextTime == until)
      && PersistedInTime(Next(st, steps[0]), steps[1..], until)
  }

  /** The cooldown until the deadline, set at generation g, is in force in memory or in the status. */
  predicate Armed(st: State, until: int, g: int) {
    st.generation >= g && (if st.entry.Some? then st.entry.value.until == until && st.entry.value.generation >= g
                           else st.persisted == Some(until))
  }

  /**
   After a cooldown is set at generation g, the first reconciliation that is not skipped comes at the deadline or
   later, or at a higher generation, in every run, and across restarts once the status is persisted.
   */
  lemma {:induction false} NoPassBeforeDeadline(st: State, steps: seq<Step>, until: int, g: int)
    requires Armed(st, until, g) && PersistedInTime(st, steps, until) && AllSkip(st, steps)
    requires !Skips(LiveView(Final(st, steps)), Final(st, steps).now)
    ensures Final(st, steps).now >= until || Final(st, steps).generation > g
    decreases |steps|
  {
    if steps != [] {
      NoPassBeforeDeadline(Next(st, steps[0]), steps[1..], until, g);
    }
  }

  /** And if the generation goes up while the cooldown is in memory, the next reconciliation does go ahead. */
  lemma GenerationWinsInMemory(st: State)
    requires st.entry.Some? && st.generation > st.entry.value.generation
    ensures !Skips(LiveView(st), st.now)
  {
  }

  /** So does a change of the specification, or time, after any reconciliation of that generation was skipped. */
  lemma ChangeOrTimeHelps(st: State, seconds: nat)
    requires st.entry.Some? && st.entry.value.generation == st.generation && Skips(LiveView(st), st.now)
    ensures !Skips(LiveView(Next(st, Bump)), Next(st, Bump).now)
    ensures Skips(LiveView(Next(st, Tick(seconds))), Next(st, Tick(seconds)).now)
            <==> seconds < st.entry.value.until - st.now
  {
  }

  /** After a restart it does not: the status does not say at which generation the cooldown was set. */
  lemma GenerationLosesAfterRestart(st: State, until: int, g: int)
    requires Armed(st, until, g) && st.persisted == Some(until) && st.now < until
    ensures Skips(LiveView(Next(Next(st, Bump), Restart)), st.now)
  {
  }

  /** A restart before the status is persisted loses the cooldown. */
  lemma RestartBeforePersist(until: int, g: int)
    ensures var st := State(until - 1, Some(Entry(until, g)), None, g);
            Armed(st, until, g) && !Skips(LiveView(Next(st, Restart)), st.now) && st.now < until && st.generation == g
  {
  }

  // ----- The cooldown never sticks -----

  /** The wait is never zero. It is the longer of the two that are known, or ten seconds if the status knows of none. */
  lemma RemainingIsTheLongest(v: View, now: int)
    ensures Remaining(v, now) > 0
    ensures v.entry.Some? ==> Remaining(v, now) >= v.entry.value.until - now
    ensures v.nextTime.Some? ==> Remaining(v, now) >= v.nextTime.value - now
    ensures Remaining(v, now) == 10 || (v.entry.Some? && Remaining(v, now) == v.entry.value.until - now)
            || (v.nextTime.Some? && Remaining(v, now) == v.nextTime.value - now)
    ensures v.nextTime.None? || v.nextTime.value <= now ==> Remaining(v, now) >= 10
    ensures v.nextTime.Some? && v.nextTime.value > now && (v.entry.Some? ==> v.entry.value.until <= now) ==>
              Remaining(v, now) == v.nextTime.value - now
  {
  }

  /**
   Whenever a reconciliation is skipped, waiting for what remainingCooldown says and changing nothing else lets the
   next one go ahead, except for an object in deletion for which that time is not past ten seconds after deletedAt.
   */
  lemma SkippedThenPassesIff(v: View, now: int)
    requires Skips(v, now)
    ensures var after := AfterSkip(v, now);
            var later := now + Remaining(after, now);
            later > now && (!Skips(after, later) <==> !TooSoonAfterDeletion(after, later))
  {
  }

  /** Live objects always go ahead after that time. */
  lemma LiveNeverSticks(v: View, now: int)
    requires Skips(v, now) && !v.deleting
    ensures !Skips(AfterSkip(v, now), now + Remaining(AfterSkip(v, now), now))
  {
    SkippedThenPassesIff(v, now);
  }

  /** A deletion that is reconsidered in the very second it was recorded is skipped twice. */
  lemma DeletionIsSkippedTwice(at: int, generation: int)
    ensures var v := View(None, Some(at), None, generation, true);
            Skips(v, at) && Remaining(AfterSkip(v, at), at) == 10 && Skips(AfterSkip(v, at), at + 10)
  {
  }

  /** Skipping and waiting ends for an object in deletion too, after two rounds at most. */
  lemma DeletionPassesInTheEnd(v: View, now: int) returns (waits: nat)
    requires v.deletedAt.Some? ==> now >= v.deletedAt.value
    ensures waits <= 2 && !Skips(WaitedView(v, now, waits), WaitedTime(v, now, waits))
  {
    waits := 0;
    if Skips(WaitedView(v, now, 0), WaitedTime(v, now, 0)) {
      waits := 1;
      SkippedThenPassesIff(v, now);
      if Skips(WaitedView(v, now, 1), WaitedTime(v, now, 1)) {
        waits := 2;
        SkippedThenPassesIff(WaitedView(v, now, 1), WaitedTime(v, now, 1));
      }
    }
  }

  /** The memory, and the time, after so many rounds of skipping and waiting. */
  function WaitedView(v: View, now: int, waits: nat): View {
    if waits == 0 then v else AfterSkip(WaitedView(v, now, waits - 1), WaitedTime(v, now, waits - 1))
  }

  function WaitedTime(v: View, now: int, waits: nat): int {
    if waits == 0 then now
    else
      var t := WaitedTime(v, now, waits - 1);
      t + Remaining(AfterSkip(WaitedView(v, now, waits - 1), t), t)
  }
}
