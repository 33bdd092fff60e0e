/** No job is ever lost: every stored job that is not final and has no deliveries yet is on its way through this
    process, or recovery is going to publish it, unless this process has let go of it. A crash loses every message and
    every worker, and the recovery of the next process starts with all such jobs. */
module NoLostJob {
  import opened Sequences
  import opened Pipeline
  import opened Frames
  import opened Deliveries
  import opened Interference
  import opened DeliverySets
  import opened Finalisation

  // ---------------------------------------------------------------- where a job can be

  /** It is listed as pending, or as in processing and still is. */
  ghost predicate IsDue(todo: seq<Stalled>, jobs: seq<Job>, job: nat) {
    exists k :: 0 <= k < |todo| && todo[k].job == job
        && (todo[k].wasProcessing ==> job < |jobs| && jobs[job].status.JobProcessing?)
  }

  /** Recovery has not scanned yet, or is going to publish the job. */
  ghost predicate Awaits(r: Recovery, jobs: seq<Job>, job: nat) {
    match r
    case JobScan => true
    case JobLoop(todo) => IsDue(todo, jobs, job)
    case JobPublish(next, todo) => next == job || IsDue(todo, jobs, job)
    case _ => false
  }

  /** Stored, not final, and without deliveries. */
  ghost predicate IsOpen(s: State, job: nat) {
    job < |s.jobs| && !s.jobs[job].status.Final() && !HasRows(s.rows, job)
  }

  /** The job is with its handler, in a queue, with a worker of the intake, or, if it was stored before this process,
      with recovery. */
  ghost predicate OnItsWay(s: State, job: nat) {
    InIntake(s.intake, job) || (job < s.bootJobs && Awaits(s.recovery, s.jobs, job))
  }

  ghost predicate JobInv(s: State) {
    !s.panicked ==> forall job: nat :: IsOpen(s, job) && job !in s.dismissed ==> OnItsWay(s, job)
  }

  // ---------------------------------------------------------------- the scan

  /** The scan lists exactly the jobs that are not final and have no deliveries, each with its status. */
  lemma {:induction false} StalledJobsAre(jobs: seq<Job>, rows: seq<Delivery>, job: nat, wasProcessing: bool)
    ensures Stalled(job, wasProcessing) in StalledJobs(jobs, rows)
       <==> && job < |jobs| && !jobs[job].status.Final() && !HasRows(rows, job)
            && wasProcessing == jobs[job].status.JobProcessing?
    decreases |jobs|
  {
    if jobs != [] {
      StalledJobsAre(Init(jobs), rows, job, wasProcessing);
    }
  }

  // ---------------------------------------------------------------- the intake

  lemma HandlerKeepsJob(cfg: Config, s: State, a: HandlerAction, job: nat)
    requires HandlerEnabled(s, a) && InIntake(s.intake, job)
    ensures var s' := HandlerNext(cfg, s, a); s'.panicked || job in s'.dismissed || InIntake(s'.intake, job)
  {
  }

  lemma VerifierKeepsJob(cfg: Config, s: State, i: nat, a: VerifierAction, job: nat)
    requires VerifierEnabled(cfg, s, i, a) && InIntake(s.intake, job)
    ensures var s' := VerifierNext(cfg, s, i, a); s'.panicked || job in s'.dismissed || InIntake(s'.intake, job)
  {
    var s' := VerifierNext(cfg, s, i, a);
    assert i < |s'.intake.verifiers|;
    if VerifiersHold(s.intake.verifiers, job) {
      var k :| 0 <= k < |s.intake.verifiers| && VerifierHolds(s.intake.verifiers[k], job);
      assert k != i ==> s'.intake.verifiers[k] == s.intake.verifiers[k];
    }
    assert VerifierHolds(s'.intake.verifiers[i], job) ==> VerifiersHold(s'.intake.verifiers, job);
  }

  lemma ExtractorKeepsJob(cfg: Config, s: State, i: nat, a: ExtractorAction, job: nat)
    requires ExtractorEnabled(cfg, s, i, a) && InIntake(s.intake, job)
    requires a.ECommit? ==> job != s.intake.extractors[i].job
    ensures var s' := ExtractorNext(cfg, s, i, a); s'.panicked || job in s'.dismissed || InIntake(s'.intake, job)
  {
    var s' := ExtractorNext(cfg, s, i, a);
    assert i < |s'.intake.extractors|;
    if ExtractorsHold(s.intake.extractors, job) {
      var k :| 0 <= k < |s.intake.extractors| && s.intake.extractors[k] == EBuild(job);
      assert k != i ==> s'.intake.extractors[k] == s.intake.extractors[k];
    }
    assert s'.intake.extractors[i] == EBuild(job) ==> ExtractorsHold(s'.intake.extractors, job);
  }

  /** A committed job has deliveries or is done. */
  lemma CommittedIsNotOpen(cfg: Config, s: State, i: nat)
    requires BaseInv(cfg, s) && SetInv(cfg, s) && ExtractorEnabled(cfg, s, i, ECommit)
    ensures !IsOpen(ExtractorNext(cfg, s, i, ECommit), s.intake.extractors[i].job)
  {
    var job, s' := s.intake.extractors[i].job, ExtractorNext(cfg, s, i, ECommit);
    ExtractionOutcome(cfg, s, i);
    if !HasRows(s.rows, job) {
      var ids := Affected(cfg, s.users, s.jobs[job].place);
      if ids != [] {
        assert s'.rows[|s.rows|].job == job;
      }
    } else {
      assert s'.rows == s.rows;
    }
  }

  lemma IntakeKeepsJob(cfg: Config, s: State, a: Action, job: nat)
    requires BaseInv(cfg, s) && SetInv(cfg, s) && Enabled(cfg, s, a) && !a.Crash? && !a.Recover?
    requires InIntake(s.intake, job) && IsOpen(Next(cfg, s, a), job)
    ensures var s' := Next(cfg, s, a); s'.panicked || job in s'.dismissed || InIntake(s'.intake, job)
  {
    match a
    case Handler(h) => HandlerKeepsJob(cfg, s, h, job);
    case Verify(i, v) => VerifierKeepsJob(cfg, s, i, v, job);
    case ExtractUsers(i, e) =>
      if e.ECommit? {
        CommittedIsNotOpen(cfg, s, i);
      }
      ExtractorKeepsJob(cfg, s, i, e, job);
    case _ => StepLeaves(cfg, s, a);
  }

  // ---------------------------------------------------------------- statuses

  /** The status of a job without deliveries changes only where the job is judged, extracted or reset by recovery. */
  lemma StatusStays(cfg: Config, s: State, a: Action, job: nat)
    requires BaseInv(cfg, s) && SetInv(cfg, s) && WorkerVerdictsOk(s.rows, s.mail) && Enabled(cfg, s, a)
    requires !a.Recover? && job < |s.jobs| && IsOpen(Next(cfg, s, a), job) && job !in Next(cfg, s, a).dismissed
    requires !HasRows(s.rows, job)
    ensures Next(cfg, s, a).jobs[job].status == s.jobs[job].status
  {
    match a
    case ExtractUsers(i, e) =>
      if e.ECommit? {
        CommittedIsNotOpen(cfg, s, i);
        CommitStatusOfOthers(cfg, s, i, job);
      }
    case Notify(_, _) => MailLeavesStatus(cfg, s, a, job);
    case Retry(_, _) => MailLeavesStatus(cfg, s, a, job);
    case Shutdown(d) => ShutdownLeaves(s, d);
    case Handler(_) =>
    case Verify(_, _) =>
    case Crash(_) =>
  }

  lemma MailLeavesStatus(cfg: Config, s: State, a: Action, job: nat)
    requires WorkerVerdictsOk(s.rows, s.mail) && Enabled(cfg, s, a) && (a.Notify? || a.Retry?)
    requires job < |s.jobs| && !HasRows(s.rows, job)
    ensures var s' := Next(cfg, s, a); job < |s'.jobs| && s'.jobs[job].status == s.jobs[job].status
  {
    MailStatus(cfg, s, a, job);
    var s' := Next(cfg, s, a);
    if s'.jobs[job].status != s.jobs[job].status {
      VerdictOfCloser(s, a, job, s'.jobs[job].status);
    }
  }

  lemma RowsCome(cfg: Config, s: State, a: Action, job: nat)
    requires BaseInv(cfg, s) && Enabled(cfg, s, a) && HasRows(s.rows, job)
    ensures HasRows(Next(cfg, s, a).rows, job)
  {
    NextKeepsBase(cfg, s, a);
    var i :| 0 <= i < |s.rows| && s.rows[i].job == job;
    assert RowEvolves(s.rows[i], Next(cfg, s, a).rows[i]);
  }

  // ---------------------------------------------------------------- recovery

  lemma ScanAwaits(jobs: seq<Job>, rows: seq<Delivery>, job: nat)
    requires job < |jobs| && !jobs[job].status.Final() && !HasRows(rows, job)
    ensures IsDue(StalledJobs(jobs, rows), jobs, job)
  {
    StalledJobsAre(jobs, rows, job, jobs[job].status.JobProcessing?);
  }

  lemma DueLater(todo: seq<Stalled>, jobs: seq<Job>, jobs': seq<Job>, job: nat)
    requires IsDue(todo, jobs, job) && |jobs| <= |jobs'|
    requires job < |jobs| ==> jobs'[job].status == jobs[job].status
    ensures IsDue(todo, jobs', job)
  {
  }

  /** Whoever is due and not next stays due. */
  lemma RestIsDue(todo: seq<Stalled>, jobs: seq<Job>, job: nat)
    requires todo != [] && IsDue(todo, jobs, job)
    ensures todo[0].job == job || IsDue(todo[1..], jobs, job)
  {
    var k :| 0 <= k < |todo| && todo[k].job == job
        && (todo[k].wasProcessing ==> job < |jobs| && jobs[job].status.JobProcessing?);
    assert k > 0 ==> todo[1..][k - 1] == todo[k];
  }

  lemma NextJobKeepsJob(cfg: Config, s: State, job: nat)
    requires RecoveryEnabled(cfg, s, NextJob) && Awaits(s.recovery, s.jobs, job)
    ensures var s' := RecoveryNext(cfg, s, NextJob); Awaits(s'.recovery, s'.jobs, job)
  {
    var todo, s' := s.recovery.jobs, RecoveryNext(cfg, s, NextJob);
    RestIsDue(todo, s.jobs, job);
    if todo[0].job != job {
      DueLater(todo[1..], s.jobs, s'.jobs, job);
    }
  }

  lemma FailureDismisses(s: State, job: nat)
    requires IsOpen(s, job) && job < s.bootJobs && Awaits(s.recovery, s.jobs, job)
    ensures job in Unrecovered(s.recovery, s.jobs, s.rows, s.bootJobs)
  {
  }

  lemma RecoveryKeepsJob(cfg: Config, s: State, a: RecoveryAction, job: nat)
    requires RecoveryEnabled(cfg, s, a) && OnItsWay(s, job) && IsOpen(s, job)
    ensures var s' := RecoveryNext(cfg, s, a); s'.panicked || job in s'.dismissed || OnItsWay(s', job)
  {
    RecoveryLeaves(cfg, s, a);
    if job < s.bootJobs && Awaits(s.recovery, s.jobs, job) {
      match a
      case ScanJobs => ScanAwaits(s.jobs, s.rows, job);
      case NextJob => NextJobKeepsJob(cfg, s, job);
      case RecoveryFails => FailureDismisses(s, job);
      case _ =>
    }
  }

  // ---------------------------------------------------------------- every step

  lemma AcceptedIsOnItsWay(cfg: Config, s: State, a: Action, job: nat)
    requires Enabled(cfg, s, a) && job >= |s.jobs| && job < |Next(cfg, s, a).jobs| && !a.Crash?
    ensures InIntake(Next(cfg, s, a).intake, job)
  {
    StepLeaves(cfg, s, a);
  }

  lemma StepKeepsJob(cfg: Config, s: State, a: Action, job: nat)
    requires BaseInv(cfg, s) && SetInv(cfg, s) && WorkerVerdictsOk(s.rows, s.mail) && Enabled(cfg, s, a) && !a.Crash?
    requires var s' := Next(cfg, s, a); IsOpen(s', job) && job !in s'.dismissed && !s'.panicked
    requires IsOpen(s, job) ==> OnItsWay(s, job)
    ensures OnItsWay(Next(cfg, s, a), job)
  {
    var s' := Next(cfg, s, a);
    if job >= |s.jobs| {
      AcceptedIsOnItsWay(cfg, s, a, job);
    } else {
      if HasRows(s.rows, job) {
        RowsCome(cfg, s, a, job);
      }
      StepLeaves(cfg, s, a);
      if a.Recover? {
        RecoveryStatus(cfg, s, a.c, job);
        RecoveryKeepsJob(cfg, s, a.c, job);
      } else {
        StatusStays(cfg, s, a, job);
        if InIntake(s.intake, job) {
          IntakeKeepsJob(cfg, s, a, job);
        } else {
          AwaitsLater(s.recovery, s.jobs, s'.jobs, job);
        }
      }
    }
  }

  lemma AwaitsLater(r: Recovery, jobs: seq<Job>, jobs': seq<Job>, job: nat)
    requires Awaits(r, jobs, job) && job < |jobs| <= |jobs'| && jobs'[job].status == jobs[job].status
    ensures Awaits(r, jobs', job)
  {
  }

  /** After a crash recovery is about to scan, nothing is dismissed, and the scan is going to list the job with the
      status that it has. */
  lemma CrashTakesJobsUp(cfg: Config, s: State, users: seq<User>, job: nat)
    requires Enabled(cfg, s, Crash(users)) && IsOpen(s, job)
    ensures var s' := Next(cfg, s, Crash(users));
            && s'.jobs == s.jobs && s'.rows == s.rows && s'.dismissed == {} && !s'.panicked
            && s'.recovery.JobScan? && job < s'.bootJobs && Enabled(cfg, s', Recover(ScanJobs))
            && var r := Next(cfg, s', Recover(ScanJobs)).recovery;
               r.JobLoop? && Stalled(job, s.jobs[job].status.JobProcessing?) in r.jobs
  {
    StalledJobsAre(s.jobs, s.rows, job, s.jobs[job].status.JobProcessing?);
  }

  lemma NextKeepsJobs(cfg: Config, s: State, a: Action)
    requires BaseInv(cfg, s) && SetInv(cfg, s) && WorkerVerdictsOk(s.rows, s.mail) && JobInv(s) && Enabled(cfg, s, a)
    ensures JobInv(Next(cfg, s, a))
  {
    var s' := Next(cfg, s, a);
    FlagsOfStep(cfg, s, a);
    forall job: nat | IsOpen(s', job) && job !in s'.dismissed && !s'.panicked ensures OnItsWay(s', job) {
      if a.Crash? {
        CrashTakesJobsUp(cfg, s, a.newUsers, job);
      } else {
        StepKeepsJob(cfg, s, a, job);
      }
    }
  }

  /** Once the intake is empty and the first pass of recovery is over, every open job without deliveries is one that
      this process has let go of. */
  lemma NothingOnItsWay(s: State, job: nat)
    requires JobInv(s) && !s.panicked && IsOpen(s, job) && !InIntake(s.intake, job)
    requires !s.recovery.JobScan? && !s.recovery.JobLoop? && !s.recovery.JobPublish?
    ensures job in s.dismissed
  {
  }
}
