/**
 Deployments and cleanups of one feature never meet (controllers/clustersummary_deployer.go). A reconciliation purges
 the queue of the other kind of request, checks that none of that kind is running, and only then queues its own; workers
 start and finish jobs anywhere in between.
 */
module DeploymentPhases {
  import opened Common
  import opened Deployer
  import opened FeatureDeployment
  import FeatureRemoval

  datatype Phase = Resting | AfterPurge(kind: Kind) | AfterCheck(kind: Kind)

  datatype Slots = Slots(deploys: Slot, cleanups: Slot, phase: Phase)

  /** The phases of one reconciliation, and the steps of the workers. */
  datatype Move =
    | Purge(kind: Kind)
    | Check(kind: Kind)
    | Consume(kind: Kind)
    | Enqueue(kind: Kind, hash: Hash)
    | Done
    | Start(kind: Kind, serial: nat)
    | Finish(kind: Kind, error: Option<DeployError>)

  function Other(kind: Kind): Kind {
    if kind == Deploying then CleaningUp else Deploying
  }

  function Get(s: Slots, kind: Kind): Slot {
    if kind == Deploying then s.deploys else s.cleanups
  }

  function Put(s: Slots, kind: Kind, slot: Slot): Slots {
    if kind == Deploying then s.(deploys := slot) else s.(cleanups := slot)
  }

  /** Reconciliations of one object do not overlap. Results may be read by anybody at any time. */
  predicate MoveEnabled(s: Slots, move: Move) {
    match move
    case Purge(_) => s.phase == Resting
    case Check(k) => s.phase == AfterPurge(k)
    case Consume(_) => true
    case Enqueue(k, _) => s.phase == AfterCheck(k)
    case Done => true
    case Start(k, _) => CanStart(Get(s, k))
    case Finish(k, _) => Get(s, k).running.Some?
  }

  function Moved(s: Slots, move: Move): Slots
    requires MoveEnabled(s, move)
  {
    match move
    case Purge(k) => Put(s, Other(k), Purged(Get(s, Other(k)))).(phase := AfterPurge(k))
    case Check(k) => s.(phase := if Get(s, Other(k)).running.Some? then Resting else AfterCheck(k))
    case Consume(k) => Put(s, k, Read(Get(s, k)).1)
    case Enqueue(k, hash) => Put(s, k, Enqueued(Get(s, k), hash))
    case Done => s.(phase := Resting)
    case Start(k, serial) => Put(s, k, Started(Get(s, k), serial))
    case Finish(k, error) => Put(s, k, Finished(Get(s, k), error))
  }

  ghost predicate Moves(s: Slots, moves: seq<Move>)
    decreases |moves|
  {
    moves != [] ==> MoveEnabled(s, moves[0]) && Moves(Moved(s, moves[0]), moves[1..])
  }

  function AfterMoves(s: Slots, moves: seq<Move>): Slots
    requires Moves(s, moves)
    decreases |moves|
  {
    if moves == [] then s else AfterMoves(Moved(s, moves[0]), moves[1..])
  }

  predicate Apart(s: Slots) {
    && !(Active(s.deploys) && Active(s.cleanups))
    && (s.phase.AfterPurge? ==> Get(s, Other(s.phase.kind)).queued.None?)
    && (s.phase.AfterCheck? ==> !Active(Get(s, Other(s.phase.kind))))
  }

  /** Wherever workers start and finish jobs between the purge, the check and the request. */
  lemma {:induction false} DeployAndCleanupNeverMeet(s: Slots, moves: seq<Move>)
    requires Apart(s) && Moves(s, moves)
    ensures Apart(AfterMoves(s, moves))
    decreases |moves|
  {
    if moves != [] {
      DeployAndCleanupNeverMeet(Moved(s, moves[0]), moves[1..]);
    }
  }

  /** A reconciliation that deploys is a run of these phases: what it leaves in the deployer is what they leave. */
  lemma DeployPassFollowsThePhases(cfg: Config, env: Env, f: Option<Feature>, deploys: Slot, cleanups: Slot)
    returns (moves: seq<Move>)
    ensures var s := Slots(deploys, cleanups, Resting);
            var r := DeployPass(cfg, env, f, deploys, cleanups);
            Moves(s, moves) && AfterMoves(s, moves) == Slots(r.deploys, r.cleanups, Resting)
  {
    var s0 := Slots(deploys, cleanups, Resting);
    var s1 := Moved(s0, Purge(Deploying));
    var s2 := Moved(s1, Check(Deploying));
    var r := DeployPass(cfg, env, f, deploys, cleanups);
    if cleanups.running.Some? {
      Prepend(s1, Check(Deploying), []);
      Prepend(s0, Purge(Deploying), [Check(Deploying)]);
      return [Purge(Deploying)] + [Check(Deploying)];
    }
    var s3 := if r.queued then s2.(deploys := r.deploys) else s2;
    var tail: seq<Move> := [Done];
    assert Moves(s2, []);
    if env.hash.Computed? {
      var same := StoredHash(f) == env.hash.hash;
      var redeploy := ShouldRedeploy(cfg, if same then f else WithoutFailures(f), same);
      var s4 := if same && redeploy then Moved(s2, Consume(Deploying)) else s2;
      var s5 := if r.queued then Moved(s4, Enqueue(Deploying, env.hash.hash)) else s4;
      Prepend(s5, Done, []);
      if r.queued {
        Prepend(s4, Enqueue(Deploying, env.hash.hash), tail);
        tail := [Enqueue(Deploying, env.hash.hash)] + tail;
      }
      if same && redeploy {
        Prepend(s2, Consume(Deploying), tail);
        tail := [Consume(Deploying)] + tail;
      }
    } else {
      Prepend(s2, Done, []);
    }
    Prepend(s1, Check(Deploying), tail);
    Prepend(s0, Purge(Deploying), [Check(Deploying)] + tail);
    moves := [Purge(Deploying)] + ([Check(Deploying)] + tail);
  }

  lemma Prepend(s: Slots, move: Move, rest: seq<Move>)
    requires MoveEnabled(s, move) && Moves(Moved(s, move), rest)
    ensures Moves(s, [move] + rest) && AfterMoves(s, [move] + rest) == AfterMoves(Moved(s, move), rest)
  {
    assert ([move] + rest)[1..] == rest;
  }

  /** So does a reconciliation that removes the feature, with the kinds the other way round. */
  lemma UndeployPassFollowsThePhases(dryRun: bool, pull: Option<FeatureRemoval.RemovePull>, f: Option<Feature>,
                                     deploys: Slot, cleanups: Slot) returns (moves: seq<Move>)
    ensures var s := Slots(deploys, cleanups, Resting);
            var r := FeatureRemoval.UndeployPass(dryRun, pull, f, deploys, cleanups);
            Moves(s, moves) && AfterMoves(s, moves) == Slots(r.deploys, r.cleanups, Resting)
  {
    var s0 := Slots(deploys, cleanups, Resting);
    var s1 := Moved(s0, Purge(CleaningUp));
    var s2 := Moved(s1, Check(CleaningUp));
    var r := FeatureRemoval.UndeployPass(dryRun, pull, f, deploys, cleanups);
    var tail: seq<Move> := [];
    if deploys.running.None? {
      var stops := HasStatus(f, Removed) || (pull.Some? && pull.value.activeSource);
      var s3 := if stops then s2 else Moved(s2, Consume(CleaningUp));
      var again := r.cleanups != s3.cleanups;
      var s4 := if again then Moved(s3, Enqueue(CleaningUp, None)) else s3;
      assert s4.cleanups == r.cleanups;
      assert Moves(Moved(s4, Done), []);
      Prepend(s4, Done, []);
      tail := [Done] + [];
      if again {
        Prepend(s3, Enqueue(CleaningUp, None), tail);
        tail := [Enqueue(CleaningUp, None)] + tail;
      }
      if !stops {
        Prepend(s2, Consume(CleaningUp), tail);
        tail := [Consume(CleaningUp)] + tail;
      }
    }
    Prepend(s1, Check(CleaningUp), tail);
    Prepend(s0, Purge(CleaningUp), [Check(CleaningUp)] + tail);
    moves := [Purge(CleaningUp)] + ([Check(CleaningUp)] + tail);
  }
}
