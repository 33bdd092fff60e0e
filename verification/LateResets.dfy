/** Recovery of unfinished jobs runs while reports are being accepted. Its reset can hit a job that already has
    deliveries, but only one that this very process has accepted, so that both `CreateReport` and recovery publish
    it. */
module LateResets {
  import opened Sequences
  import opened Pipeline
  import opened Frames
  import opened Deliveries
  import opened Interference
  import opened DeliverySets
  import opened Finalisation

  ghost predicate DistinctJobs(todo: seq<Stalled>) {
    forall i, k :: 0 <= i < k < |todo| ==> todo[i].job != todo[k].job
  }

  /** A job from before this process that recovery has yet to publish is nowhere else and has no deliveries. */
  ghost predicate Waiting(boot: nat, rows: seq<Delivery>, k: Intake, todo: seq<Stalled>) {
    && DistinctJobs(todo)
    && forall i :: 0 <= i < |todo| && todo[i].job < boot ==> !InIntake(k, todo[i].job) && !HasRows(rows, todo[i].job)
  }

  ghost predicate NothingOld(boot: nat, k: Intake) {
    forall job: nat :: job < boot ==> !InIntake(k, job)
  }

  ghost predicate RecoveryWaits(boot: nat, rows: seq<Delivery>, k: Intake, r: Recovery) {
    match r
    case JobScan => NothingOld(boot, k)
    case JobLoop(todo) => Waiting(boot, rows, k, todo)
    case JobPublish(next, todo) => Waiting(boot, rows, k, todo) && forall i :: 0 <= i < |todo| ==> todo[i].job != next
    case _ => true
  }

  ghost predicate OriginInv(s: State) {
    s.bootJobs <= |s.jobs| && RecoveryWaits(s.bootJobs, s.rows, s.intake, s.recovery)
  }

  lemma LateResetsHitNewJobs(s: State, a: Action, job: nat)
    requires OriginInv(s) && ResetByRecovery(s.recovery, a, job) && HasRows(s.rows, job)
    ensures job >= s.bootJobs
  {
  }

  // ---------------------------------------------------------------- one action

  /** Nothing old enters the intake and no job outside it gets rows. */
  ghost predicate NothingEnters(boot: nat, rows: seq<Delivery>, k: Intake, rows': seq<Delivery>, k': Intake) {
    forall job: nat :: job < boot && !InIntake(k, job) ==>
      !InIntake(k', job) && (HasRows(rows', job) ==> HasRows(rows, job))
  }

  lemma StillWaiting(boot: nat, rows: seq<Delivery>, k: Intake, rows': seq<Delivery>, k': Intake, r: Recovery)
    requires RecoveryWaits(boot, rows, k, r) && NothingEnters(boot, rows, k, rows', k')
    ensures RecoveryWaits(boot, rows', k', r)
  {
  }

  lemma ExtractorEnters(cfg: Config, s: State, i: nat, a: ExtractorAction)
    requires BaseInv(cfg, s) && SetInv(cfg, s) && ExtractorEnabled(cfg, s, i, a)
    ensures var s' := ExtractorNext(cfg, s, i, a); NothingEnters(s.bootJobs, s.rows, s.intake, s'.rows, s'.intake)
  {
    var s' := ExtractorNext(cfg, s, i, a);
    forall job: nat | InIntake(s'.intake, job) ensures InIntake(s.intake, job) {
      ExtractorLive(cfg, s, i, a, job);
    }
    forall job: nat | !InIntake(s.intake, job) && HasRows(s'.rows, job) ensures HasRows(s.rows, job) {
      if a.ECommit? {
        var own := s.intake.extractors[i].job;
        assert ExtractorsHold(s.intake.extractors, own);
        ExtractionOutcome(cfg, s, i);
        BatchIsForOneJob(s.rows, own, Affected(cfg, s.users, s.jobs[own].place), job);
      }
    }
  }

  lemma {:induction false} StalledJobsAreDistinct(jobs: seq<Job>, rows: seq<Delivery>)
    ensures DistinctJobs(StalledJobs(jobs, rows))
    decreases |jobs|
  {
    if jobs != [] {
      StalledJobsAreDistinct(Init(jobs), rows);
      StalledJobsExist(Init(jobs), rows);
    }
  }

  lemma ScanWaits(cfg: Config, s: State)
    requires OriginInv(s) && RecoveryEnabled(cfg, s, ScanJobs)
    ensures OriginInv(RecoveryNext(cfg, s, ScanJobs))
  {
    var todo := StalledJobs(s.jobs, s.rows);
    StalledJobsAreDistinct(s.jobs, s.rows);
    forall i | 0 <= i < |todo| ensures !HasRows(s.rows, todo[i].job) {
      StalledJobsHaveNoRows(s.jobs, s.rows, i);
    }
  }

  lemma RestWaits(boot: nat, rows: seq<Delivery>, k: Intake, todo: seq<Stalled>)
    requires Waiting(boot, rows, k, todo) && todo != []
    ensures Waiting(boot, rows, k, todo[1..])
    ensures forall i :: 0 <= i < |todo[1..]| ==> todo[1..][i].job != todo[0].job
  {
  }

  lemma NextJobKeepsOrigins(cfg: Config, s: State)
    requires OriginInv(s) && RecoveryEnabled(cfg, s, NextJob)
    ensures OriginInv(RecoveryNext(cfg, s, NextJob))
  {
    if s.recovery.jobs != [] {
      RestWaits(s.bootJobs, s.rows, s.intake, s.recovery.jobs);
    }
  }

  lemma RecoveryKeepsOrigins(cfg: Config, s: State, a: RecoveryAction)
    requires BaseInv(cfg, s) && OriginInv(s) && RecoveryEnabled(cfg, s, a)
    ensures OriginInv(RecoveryNext(cfg, s, a))
  {
    match a
    case ScanJobs => ScanWaits(cfg, s);
    case NextJob => NextJobKeepsOrigins(cfg, s);
    case _ =>
  }

  lemma NextEnters(cfg: Config, s: State, a: Action)
    requires BaseInv(cfg, s) && SetInv(cfg, s) && s.bootJobs <= |s.jobs| && Enabled(cfg, s, a) && !a.Recover?
    requires !a.Crash?
    ensures var s' := Next(cfg, s, a); NothingEnters(s.bootJobs, s.rows, s.intake, s'.rows, s'.intake)
  {
    if a.ExtractUsers? {
      ExtractorEnters(cfg, s, a.i, a.e);
    } else {
      var s' := Next(cfg, s, a);
      StepLeaves(cfg, s, a);
      QuietRows(cfg, s, a);
      forall job: nat ensures HasRows(s'.rows, job) <==> HasRows(s.rows, job) {
        SameSets(s.rows, s'.rows, job);
      }
    }
  }

  lemma BootKeepsOrigins(cfg: Config, s: State, users: seq<User>)
    ensures OriginInv(Boot(cfg, s, users))
  {
  }

  lemma OthersKeepOrigins(cfg: Config, s: State, a: Action)
    requires BaseInv(cfg, s) && SetInv(cfg, s) && OriginInv(s) && Enabled(cfg, s, a) && !a.Recover? && !a.Crash?
    ensures OriginInv(Next(cfg, s, a))
  {
    var s' := Next(cfg, s, a);
    NextEnters(cfg, s, a);
    StepLeaves(cfg, s, a);
    NextKeepsPlaces(cfg, s, a);
    StillWaiting(s.bootJobs, s.rows, s.intake, s'.rows, s'.intake, s.recovery);
  }

  lemma NextKeepsOrigins(cfg: Config, s: State, a: Action)
    requires BaseInv(cfg, s) && SetInv(cfg, s) && OriginInv(s) && Enabled(cfg, s, a)
    ensures OriginInv(Next(cfg, s, a))
  {
    if a.Recover? {
      RecoveryKeepsOrigins(cfg, s, a.c);
    } else if a.Crash? {
      BootKeepsOrigins(cfg, s, a.newUsers);
    } else {
      OthersKeepOrigins(cfg, s, a);
    }
  }
}
